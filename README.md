# Chat and simulated-execution core of the Dotmini AI Lab

This project is a Dafny model of the decision logic in a small web chat application. An Express
server forwards a user's prompt to the Gemini generation API and turns whatever comes back into an
HTTP reply. It also offers a *simulated* Python run: canned `stdout`/`stderr`/`error` output chosen
by pattern matching on the code. A React client keeps the chat transcript, renders fenced code
blocks with a run button, and shows the run's output.

What is modelled, module by module:

- `Wire` (wire.dfy): the JSON values the two sides exchange. A request body field is `Absent`,
  `Text(s)`, `NonText(shown)` or `Unconvertible`. `NonText` is any other value that a template
  literal can print, and `shown` is that text. `Unconvertible` is an object whose own `toString` is
  not a function, or an array holding one: a template literal throws a TypeError on it.
  It also holds JavaScript truthiness of optional strings and the decimal rendering of a status.
- `JsStrings` (js_strings.dfy): `trim`, `toLowerCase`, substring search, and the regular
  expressions `/error|exception|raise/i`, `/import\s+\w+/` and the `\w+` run of
  `/language-(\w+)/`. Each computable scanner is proved equal to a declarative description of a match.
- `ChatHandler` (chat_handler.dfy): `POST /api/chat`. The prompt guard comes first, then one
  provider call with the prompt as received. A thrown call becomes a fixed error. A returned result
  goes through a strict order of checks: a truthy block reason, then a finish reason other than
  STOP/MAX_TOKENS (with the SAFETY detail built by filter, map and join), then the first text part.
  The empty string counts as text; an empty block or finish reason counts as absent. The provider
  is a function parameter `generate: string -> Upstream`.
- `ExecuteHandler` (execute_handler.dfy): `POST /api/execute`. The code guard comes first, then the
  exact-`"python"` language guard. Before both guards the handler prints the language into a log
  line, and that conversion can throw. The simulation reads five tests from the code and is
  specified as an ordered rule list over them (too long, mentions an error word, imports a module,
  hello world, blank, echo) in which the length rule comes first. The method `Simulate` runs the
  handler's own cascade over three mutable locals, with the length check last, and `Execute` adds
  the log line and the guards; both are proved equal to that specification.
- `ChatMessage` (chat_message.dfy): the client's code-block rules. These are the fence language
  taken from the class name, the code text with one trailing newline dropped, the run-button
  predicate and the run guard (proved to agree), the reply-to-result mapping of a run, and the
  output-pane text. The class `MessageState` holds `executing`, `showOutput` and `execResult`.
  Its methods `BeginRun`/`CompleteRun` are the two halves of the asynchronous run handler, and
  `RunCode` composes them.
- `ChatInterface` (chat_interface.dfy): the transcript. The class `ChatSession` holds `messages`,
  `input`, `isLoading` and the stored history entry. Its methods cover the history load, clear,
  input change, and the two halves of send (`BeginSend`/`FinishSend`, composed by `Send`).
- `Interop` (interop.dfy): facts across client and server. Every execute reply reaches the output
  pane intact. Every chat outcome becomes exactly one AI message. A prompt the client sends always
  passes the server's guard. The client accepts `py` and any casing of `python` and forwards the
  string verbatim, but the server accepts only `"python"`. So such runs always end in the server's
  "not supported" error, and `py` and `Python` are concrete examples.

Inputs that the code receives from I/O are parameters. These are the provider's answer or
exception, the `fetch` outcome, the result of `JSON.parse` on stored history, the stored entry
itself, and the answer to `window.confirm`.

Behaviours of the code that are easy to misread:
- The SAFETY detail keeps every rating whose probability is neither `NEGLIGIBLE` nor `LOW`
  (server/src/server.ts:126-130). An unrecognised probability value therefore counts as harmful.
- `/api/execute` prints `language` into a log line before either guard and outside the `try`
  (server/src/server.ts:192-194). For a body such as `{"code":"print(1)","language":{"toString":1}}`
  that conversion throws, so the handler sends no reply of its own, whatever the code. `ExecuteReply`
  ends such a call in `ThrewBeforeReply`.
- The simulated run computes its canned output first. The length check comes last
  (server/src/server.ts:230-263) and replaces that output whenever the code is over 1000
  characters. `Execute` proves this gives the same reply as checking the length before anything else.
- On a non-OK chat reply whose body decodes as JSON, the client's message is the body's `error`.
  When that field is missing, the message is the empty string (`new Error(undefined).message`).
  `HTTP <status>` is used only when the body does not decode (client/src/components/ChatInterface.tsx:114-119).
- All code blocks of one message share one run state (client/src/components/ChatMessage.tsx:30-32).
  A run started from one Python block therefore shows the same pane under every Python block of
  that message, which is why the pane contracts quantify over every block language.

## Model

| member | source | states |
|---|---|---|
| Wire.Truthy | client/src/components/ChatMessage.tsx:150-158 | an optional string is truthy exactly when it is present and not empty, as `&&` and `!` test it |
| Wire.Shown | server/src/server.ts:193 | `${value}` of a field: `undefined` when absent, the string itself, the printed text of another convertible value, and nothing exactly when the conversion throws |
| Wire.IsOk | client/src/components/ChatMessage.tsx:65 | `response.ok`: the status lies in 200-299 |
| Wire.Decimal | client/src/components/ChatInterface.tsx:115 | `${status}` is a non-empty digit string without leading zeros whose decimal value is the status |
| JsStrings.ToLower | server/src/server.ts:240 | lower-casing keeps the length and folds each ASCII capital to its small letter, leaving every other character |
| JsStrings.SkipSpaces | server/src/server.ts:81 | the first position from the given one that is not white space, everything skipped being white space |
| JsStrings.SkipSpacesBack | server/src/server.ts:81 | going back from the end position no further than the lower bound, the start of the trailing white space run |
| JsStrings.Trim | server/src/server.ts:81 | `trim()` is a slice with only white space around it and none at its ends; it is empty exactly when the string is all white space |
| JsStrings.TrimIdempotent | client/src/components/ChatInterface.tsx:93 | trimming a trimmed string changes nothing |
| JsStrings.Contains | server/src/server.ts:235 | the search succeeds exactly when the pattern occurs at some position |
| JsStrings.ContainsFolded | server/src/server.ts:235 | the case-insensitive search succeeds exactly when the word occurs at some position with ASCII case ignored |
| JsStrings.MentionsError | server/src/server.ts:235 | `/error\|exception\|raise/i` matches exactly when one of the three words occurs, ignoring case |
| JsStrings.WordAfterSpaces | server/src/server.ts:238 | succeeds exactly when white space then a word character starts at the position |
| JsStrings.ImportAt | server/src/server.ts:238 | succeeds exactly when `import`, at least one white space character, then a word character starts at the position |
| JsStrings.ImportFrom | server/src/server.ts:238 | succeeds exactly when such a match starts at or after the position |
| JsStrings.MatchesImport | server/src/server.ts:238 | `/import\s+\w+/` matches exactly when some position starts `import`, white space and a word character |
| JsStrings.WordRun | client/src/components/ChatMessage.tsx:174 | the greedy `\w+` run: a slice of word characters that stops at the end or before a non-word character |
| ChatHandler.AcceptedPrompt | server/src/server.ts:81 | the prompt guard: a string that is not empty, even after trimming |
| ChatHandler.AbnormalFinish | server/src/server.ts:116-120 | a finish reason stops the handler exactly when it is present and neither STOP nor MAX_TOKENS |
| ChatHandler.Harmful | server/src/server.ts:126-130 | the filtered ratings are harmful ones taken from the input, and the list is empty exactly when no rating is harmful |
| ChatHandler.IsHarmful | server/src/server.ts:128-129 | the filter callback: a rating is harmful exactly when its probability is neither `NEGLIGIBLE` nor `LOW` |
| ChatHandler.HarmfulDistributes | server/src/server.ts:126-130 | the filter keeps the original order: filtering a concatenation concatenates the filtered parts |
| ChatHandler.HarmfulOfOne | server/src/server.ts:128-129 | a single rating is kept exactly when its probability is neither NEGLIGIBLE nor LOW |
| ChatHandler.Label | server/src/server.ts:131 | `category(probability)` always ends in `)` and so is never empty |
| ChatHandler.Labels | server/src/server.ts:131 | the map formats every rating, position by position |
| ChatHandler.Join | server/src/server.ts:132 | joining one part gives it back, and joining non-empty parts is empty exactly when there are none |
| ChatHandler.JoinSnoc | server/src/server.ts:132 | joining one more part appends the separator and then that part, so parts appear in order with the separator between each two |
| ChatHandler.SafetyDetail | server/src/server.ts:124-136 | the detail is non-empty exactly for a SAFETY finish with ratings of which one is harmful, and is then the prefix followed by the harmful labels joined with `, ` |
| ChatHandler.Classify | server/src/server.ts:104-174 | first match wins: a truthy block reason blocks whatever else is present; a present finish reason other than STOP/MAX_TOKENS fails with its detail; otherwise present text (even empty) succeeds verbatim, and absent text fails extraction |
| ChatHandler.Mediate | server/src/server.ts:80-97 | an invalid prompt is rejected exactly; an accepted prompt is passed to the provider as received, a throw becomes the generic upstream error, and a result is classified |
| ChatHandler.InvalidPromptSkipsUpstream | server/src/server.ts:81-91 | for a rejected prompt the outcome does not depend on the provider at all |
| ChatHandler.Reply | server/src/server.ts:85-182 | status 200 exactly for success, 400 exactly for an invalid prompt or a block, 500 for the three failures; only a success carries `response`, holding the text |
| ChatHandler.HandleChat | server/src/server.ts:79-183 | a `response` body is sent only for an accepted prompt whose provider call returned, and holds exactly the returned text |
| ChatHandler.HandleChatGuards | server/src/server.ts:80-97 | an invalid prompt gets 400 with the prompt message; a thrown provider call gets 500 with the generic upstream message |
| ChatHandler.HandleChatReturned | server/src/server.ts:104-174 | a returned generation gets 400 with the block reason, else 500 with the finish reason and SAFETY detail, else 200 with the text, else 500 with the extraction message |
| ExecuteHandler.AcceptedCode | server/src/server.ts:196 | the code guard: a string that is not empty |
| ExecuteHandler.Reject | server/src/server.ts:200-206 | a 400 reply with null stdout and stderr and the message in `error` |
| ExecuteHandler.UnsupportedMessage | server/src/server.ts:218 | the not-supported message quotes the language as the template literal printed it |
| ExecuteHandler.SaysHelloWorld | server/src/server.ts:240 | the trimmed, lower-cased code is `print('hello world')` |
| ExecuteHandler.TraitsOf | server/src/server.ts:235-246 | the five tests read from the code: more than 1000 characters, one of the error words with case ignored, an import match, the hello-world line, and blank exactly when the code is all white space |
| ExecuteHandler.Applies | server/src/server.ts:235-246 | each rule is selected by its own test, and the fallback always applies |
| ExecuteHandler.DefaultStdout | server/src/server.ts:231 | the default stdout quotes the first 50 characters of the code inside the fixed notice |
| ExecuteHandler.EchoPrefix | server/src/server.ts:231 | `substring(0, 50)` is the first min(50, length) characters |
| ExecuteHandler.FirstApplicable | server/src/server.ts:235-244 | first match wins: the result is the earliest rule that applies, all before it failing, or the fallback exactly when none applies |
| ExecuteHandler.FirstApplicableCons | server/src/server.ts:235-244 | the head rule is chosen when it applies, else the choice among the rest |
| ExecuteHandler.RuleSelection | server/src/server.ts:235-246 | the ordered rule list selects like the if/else chain with the length rule in front |
| ExecuteHandler.RuleReply | server/src/server.ts:230-263 | only the length rule gives 400 with the too-long error; every other rule gives 200 with no error and never both stdout and stderr; stderr only for an error word |
| ExecuteHandler.ExecuteReply | server/src/server.ts:192-272 | a language whose conversion throws ends the call with no reply, whatever the code; otherwise missing, empty or non-string code is rejected first, then any language but exact `python`, then code over 1000 characters; 400 always has null stdout and stderr; 200 exactly for accepted input within the limit, with null error and never both streams |
| ExecuteHandler.Simulation | server/src/server.ts:230-272 | the simulated run's reply is the answer of the first rule that applies to the code |
| ExecuteHandler.SimulationCascade | server/src/server.ts:235-244 | for code within the limit, the run gives 200 and the canned output of each rule in order: error notice, import note, hello world, no-code text, echo of the start of the code |
| ExecuteHandler.Simulate | server/src/server.ts:230-263 | the cascade over three mutable locals followed by the overriding length check gives exactly the specified run |
| ExecuteHandler.Execute | server/src/server.ts:191-272 | the log line's conversion of the language, the two guards and the simulated run give exactly the specification `ExecuteReply` |
| ChatMessage.TargetLanguage | client/src/components/ChatMessage.tsx:45 | a missing or empty language defaults to `python`; any other is kept |
| ChatMessage.PassesRunGuard | client/src/components/ChatMessage.tsx:46-48 | the run guard: the target language lower-cases to `python` or `py` |
| ChatMessage.ShowsRunButton | client/src/components/ChatMessage.tsx:95-98 | `isPython`: no fence language, or one that lower-cases to `python` or `py` |
| ChatMessage.RunButtonMatchesGuard | client/src/components/ChatMessage.tsx:95-98 | the run button is shown exactly when the run's target language passes the python/py guard |
| ChatMessage.ClassText | client/src/components/ChatMessage.tsx:174 | `className \|\| ""`: a missing class name reads as the empty string |
| ChatMessage.FirstTag | client/src/components/ChatMessage.tsx:174 | finds nothing exactly when `language-` followed by a word character never occurs; otherwise the position of the leftmost such tag |
| ChatMessage.FenceLanguage | client/src/components/ChatMessage.tsx:174-175 | absent exactly when `language-` plus a word character never occurs; otherwise the whole non-empty `\w+` run after the leftmost such tag |
| ChatMessage.CodeString | client/src/components/ChatMessage.tsx:176 | exactly one trailing newline is dropped when there is one, and nothing otherwise |
| ChatMessage.OutputText | client/src/components/ChatMessage.tsx:150-159 | `[No Output]` exactly when stdout, stderr and error are all null or empty; otherwise it is exactly as long as the three sections, starts with the stdout section when stdout is truthy, has the stderr section right after it, and is the error section alone when only the error is truthy |
| ChatMessage.Section | client/src/components/ChatMessage.tsx:150-155 | one stream's part of the pane: header, text and trailer when the text is truthy, nothing otherwise |
| ChatMessage.OutputEndsWithError | client/src/components/ChatMessage.tsx:150-159 | a truthy error's section always closes the pane text |
| ChatMessage.PaneText | client/src/components/ChatMessage.tsx:146-165 | `Running...` exactly while executing; the idle hint before any result; then the composed output |
| ChatMessage.ExecResultOf | client/src/components/ChatMessage.tsx:64-78 | an OK reply's object is kept as sent; every other ending is a frontend error with null streams, holding the server's error, `Exec request failed: <status>`, or the thrown message |
| ChatMessage.FrontendError | client/src/components/ChatMessage.tsx:74-78 | a failed run records null streams and the message behind `Frontend Error: ` |
| ChatMessage.MessageState.constructor | client/src/components/ChatMessage.tsx:30-32 | a message starts not executing, with no result and no output pane under any block |
| ChatMessage.MessageState.Pane | client/src/components/ChatMessage.tsx:134-166 | the output pane exists exactly under a run-button block while the pane is open, and shows the pane text of the current state |
| ChatMessage.MessageState.BeginRun | client/src/components/ChatMessage.tsx:44-62 | a language failing the guard sends nothing and changes nothing; otherwise the result is cleared, executing and the pane set, every run-button block shows `Running...`, and the code is posted with the target language verbatim |
| ChatMessage.MessageState.CompleteRun | client/src/components/ChatMessage.tsx:64-81 | the result becomes the mapped reply and executing is false on every path; an open pane then shows that reply's output under every run-button block |
| ChatMessage.MessageState.RunCode | client/src/components/ChatMessage.tsx:44-82 | a whole run: guarded, then posted once, ending with the mapped reply, executing false, and that reply's output in the pane of every run-button block |
| ChatMessage.MessageState.CloseOutput | client/src/components/ChatMessage.tsx:139-141 | closing removes the pane under every block and changes nothing else |
| ChatInterface.HttpErrorMessage | client/src/components/ChatInterface.tsx:114-119 | a non-OK reply's message is the body's `error`, empty when the field is missing, and `HTTP <status>` when the body does not decode |
| ChatInterface.ReplyText | client/src/components/ChatInterface.tsx:114-135 | the AI message is the truthy reply, `No response text.` for a falsy one, and the error prefix plus the thrown message otherwise; never empty |
| ChatInterface.SendDisabled | client/src/components/ChatInterface.tsx:181 | the Send button is disabled while loading or while the input is blank after trimming |
| ChatInterface.ChatSession.constructor | client/src/components/ChatInterface.tsx:28-30 | the page starts with no messages, empty input and not loading |
| ChatInterface.ChatSession.LoadHistory | client/src/components/ChatInterface.tsx:35-50 | a stored entry that parses to an array replaces the messages; one that parses otherwise or fails is removed and the messages stay; no entry changes nothing |
| ChatInterface.ChatSession.InputChanged | client/src/components/ChatInterface.tsx:75-77 | typing replaces the input only |
| ChatInterface.ChatSession.ClearChat | client/src/components/ChatInterface.tsx:84-89 | a confirmed clear empties the transcript and removes the entry; an unconfirmed one changes nothing |
| ChatInterface.ChatSession.BeginSend | client/src/components/ChatInterface.tsx:91-103 | a no-op exactly when the Send button is disabled; otherwise one user message with the trimmed input, input cleared, loading set |
| ChatInterface.ChatSession.FinishSend | client/src/components/ChatInterface.tsx:108-138 | exactly one AI message is appended and loading is cleared on every path |
| ChatInterface.ChatSession.Send | client/src/components/ChatInterface.tsx:91-139 | an accepted send appends exactly one user message and then exactly one AI message, clears the input, and ends not loading |
| Interop.ExecRepliesReachPane | client/src/components/ChatMessage.tsx:64-78 | every server reply to a run is shown: a 200 body as sent, a 400 as a frontend error with the server's message |
| Interop.PythonVariantsRejectedByServer | client/src/components/ChatMessage.tsx:45-62 | a language the client guard accepts but that is not exactly `python` always ends in the server's not-supported error, or the missing-code error for empty code |
| Interop.PyAndCapitalizedPythonAreRejected | client/src/components/ChatMessage.tsx:46-48 | `py` and `Python` both show a run button and pass the client guard, and neither is the server's language |
| Interop.MissingLanguageRunsOnServer | client/src/components/ChatMessage.tsx:45 | a block without a fence language runs on the server for any non-empty code within the length limit |
| Interop.ClientPromptPassesServerGuard | client/src/components/ChatInterface.tsx:93-112 | every prompt the client sends passes the server's non-empty prompt guard |
| Interop.ChatOutcomeShown | client/src/components/ChatInterface.tsx:114-135 | each server outcome becomes the reply text, `No response text.` for an empty success, or the error prefix plus the server's message |
| Interop.EmptyTextShownAsPlaceholder | server/src/server.ts:144-148 | an empty provider text is a 200 success on the server that the client shows as `No response text.` |

## Left out

- Express wiring is not modelled because it is configuration and I/O. This covers routing, CORS,
  `express.json`, the request-logging middleware, `app.listen`, dotenv loading and the exit when the
  API key is missing (server/src/server.ts:14-73, 301-311).
- The Gemini SDK is not modelled. This covers model construction, safety thresholds and generation
  settings. `generateContent` is the parameter `generate`, and its exception is the `Threw` variant.
- The random delay of 800 to 1800 ms before a simulated run is left out: it is timing and
  randomness and does not affect the reply.
- `GET /health` and the catch-all error middleware are left out as trivial transport.
- ExecuteHandler.ExecuteReply: `ThrewBeforeReply` is where the model stops. What follows the
  rejected promise depends on the Express version, which the source does not pin: Express 4 leaves
  the rejection unhandled, so the request gets no answer (and Node 15 or later, by default, ends the
  process on an unhandled rejection); Express 5 hands the error to the middleware's 500 reply.
- The 500 reply of `/api/execute` (server/src/server.ts:273-285) is not modelled: for string code,
  no statement in that `try` block can throw.
- All logging is left out. This includes the list of harmful categories computed on the
  extraction-failure path (server/src/server.ts:154-167), which only feeds a log line.
- Rendering is left out: React, ReactMarkdown, the syntax highlighter, CSS, the `alert` on an
  unsupported language, the clipboard copy and its feedback timer, the scroll and textarea-height
  effects, the textarea's own `disabled` while loading, and the Enter-key handler, which only calls
  the same send.
- The history save effect (client/src/components/ChatInterface.tsx:52-60) is left out because it
  is storage I/O. The stored entry is a field that load and clear update.
- `Date.now()` message ids are left out; messages are compared by sender and text.
- Interleavings are treated coarsely. Each asynchronous handler is two methods, its synchronous
  start and its completion. Any other method may run between them, but only completion in
  request order is considered.
- JsStrings.ToLower: folds ASCII letters only, unlike the full Unicode lower-casing of
  `toLowerCase`. The results compared with it are `python`, `py` and `print('hello world')`.
  No non-ASCII character lower-cases to those letters, so the comparisons agree.
- JsStrings.ContainsFolded: the `i` flag outside unicode mode never folds a non-ASCII character onto
  an ASCII one, so ASCII folding is what it does for these ASCII words.
- Lengths and offsets here count Unicode scalar values, not UTF-16 code units. This affects the
  1000-character limit and `substring(0, 50)`; they differ only for text outside the Basic
  Multilingual Plane.
- JSON shapes outside what the server sends are not modelled: non-string `error` or `response`
  fields, a `null` or array reply body, and stored history arrays whose items are not messages.
- The run button, the output pane and every member about them, `Interop.PyAndCapitalizedPythonAreRejected`
  included, assume that the `remark-code-container` branch (client/src/components/ChatMessage.tsx:92-93) is
  reached for the block that the `code` override returns (client/src/components/ChatMessage.tsx:173-191).
  Whether the markdown renderer sends that element through its `div` override depends on rendering,
  which is not modelled.
- App.tsx is not part of this model; it only composes the page.
