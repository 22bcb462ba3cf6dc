# RAG chatbot: conversation memory and chat widget

This project models the two halves of a retrieval-augmented chatbot with
per-session conversation memory, and proves properties of both.

- `chat_memory.dfy` (module `ChatMemory`) models the `/query` handler of
  `app.py`. The module-level `chat_history` dictionary is the class
  `ChatHistoryStore`. Its method `Query` follows the handler step by step:
  - it looks up or creates the session's list;
  - it formats the earlier messages as a "Previous conversation:" block;
  - it records the question and truncates to the last
    `MAX_HISTORY_MESSAGES = 5` messages;
  - it assembles the prompt from its parts;
  - it records the answer and truncates again, unless generation failed.

  A ghost `log` holds every message ever recorded per session. The class
  invariant says that what is kept is the last five messages of that log.
  The closed-form function `AfterQuery` gives the store after one answered
  request. `AfterQuestion` gives the store when generation raises: the
  question is already stored and no answer follows it.
  The lemmas relate prompts and stored lists to their meaning: which
  messages survive truncation, and how the prompt reads line by line. When
  the session has earlier messages, the prompt starts with the history
  header, the lines of each stored message's `User:`/`Assistant:` line in
  stored order, and an empty line. Then, always, come the context header,
  the context's lines, an empty line, the lines of `Question: ` followed by
  the question, an empty line and the instruction. When neither a stored
  content nor the question holds a line break, this is exactly one line per
  earlier message and one question line.
- `chat_widget.dfy` (module `ChatWidget`) models the form-submission handler
  of `static/script.js`. The page is the class `Widget`, whose fields are:
  - the transcript of `#messages`: user and bot messages plus the
    `#loading-message` placeholder;
  - the input value;
  - the submit button's `disabled` flag and `loading` class;
  - the request being awaited;
  - a ghost trace of the handler's effects in order.

  The handler is split at its `await`. `BeginSubmit` runs the synchronous
  part. `Resolve` runs the part after the response arrives, with the
  response given as an `Outcome`. `Submit` runs both.
- `wrappers.dfy` holds the `Option` type used for the optional `session_id`
  and the optional `answer` field.

Retrieval from ChromaDB and generation by Ollama are not modelled as calls.
The retrieved `context` and the generated text are parameters of `Query`,
and the prompt it would send is one of its results. The generated text is an
`Option`: `None` stands for `ollama.generate` raising or for a reply without
`"response"`. The handler then raises as well, and `Query` returns no answer. The network
round trip of the widget is likewise a parameter: an `Outcome`, which is a
response with a status and a body, or a network failure.

A response whose JSON body is `null` shows the error text, not the
no-answer text: reading `data.answer` throws after the placeholder has been
removed (`static/script.js:122-140`). `BotReply` and `HandleOutcome` model
this.

## Model

| member | source | states |
|---|---|---|
| ChatMemory.Truncate | app.py:72-74 | The kept list has at most 5 messages. It is the input unchanged when that is already within the limit, and has exactly 5 messages otherwise. |
| ChatMemory.TruncateIsSuffix | app.py:72-74 | Truncation keeps the most recent messages in their order: the result is a suffix of the input. |
| ChatMemory.TruncateAppend | app.py:70-74 | Truncating after every append keeps the same messages as truncating the whole conversation once. The stored list is the last 5 messages ever recorded. |
| ChatMemory.SplitSingleLine | app.py:67 | Splitting a string with no line break on "\n" gives that one string. |
| ChatMemory.SplitAtBreak | app.py:67 | Splitting `a + "\n" + b` gives the lines of `a` followed by the lines of `b`. |
| ChatMemory.SplitAtBlankLine | app.py:67 | Splitting `a + "\n\n" + b` gives the lines of `a`, one empty line, then the lines of `b`. |
| ChatMemory.Join | app.py:67 | Python's `sep.join(parts)`: the parts in order with `sep` between neighbours. |
| ChatMemory.SplitLines | app.py:67 | Python's `s.split("\n")`, the reading of the joined history: always at least one line, and `""` is one empty line. |
| ChatMemory.SplitEach | app.py:67 | The lines of each part in turn; there are at least as many as there are parts. |
| ChatMemory.SplitJoinEach | app.py:67 | For any parts, the lines of `"\n".join(parts)` are the lines of each part in turn. |
| ChatMemory.SplitEachSingle | app.py:67 | Parts with no line break are one line each. |
| ChatMemory.SplitJoin | app.py:67 | Splitting on "\n" undoes `"\n".join` of lines that contain no line break. |
| ChatMemory.SplitBlock | app.py:67 | A header, the `"\n"`-joined parts and an empty line, followed by more text, split into the header, the lines of each part, the empty line and the lines of the rest. |
| ChatMemory.NoBreakConcat | app.py:66 | Joining two texts that have no line break gives a text with no line break. |
| ChatMemory.RoleLabel | app.py:65 | `"User"` for role "user", `"Assistant"` for any other role. |
| ChatMemory.FormatLine | app.py:66 | One history line: the role label, `": "` and the content. |
| ChatMemory.FormatLines | app.py:63-66 | One history line per stored message, in stored order. Line i is `"User: "` or `"Assistant: "` followed by the content of message i. |
| ChatMemory.FormatLineSingle | app.py:65-66 | A history line contains a line break only if the message content does. |
| ChatMemory.FormatLinesSingle | app.py:63-66 | No history line contains a line break when no stored content does. |
| ChatMemory.HistoryBlock | app.py:62-67 | The history block is empty exactly when the session has no stored messages. |
| ChatMemory.HistoryBlockLinesAll | app.py:62-67 | For any stored contents, the block read line by line is the header line, the lines of each stored message's history line in stored order, then an empty line. |
| ChatMemory.HistoryBlockLines | app.py:62-67 | When no stored content holds a line break, the block read line by line is the header line, then exactly one line per stored message in stored order, then an empty line. |
| ChatMemory.BuildHistoryBlock | app.py:62-67 | The loop over `chat_history[session_id]` produces the history block of the stored messages. |
| ChatMemory.ContextSection | app.py:80 | The context part: the header line, the context and a blank line. |
| ChatMemory.QuestionSection | app.py:81 | The question part: `"Question: "`, the question and a blank line. |
| ChatMemory.Prompt | app.py:77-84 | The prompt: the history block (empty when there is none), then the context part, the question part and the instruction. |
| ChatMemory.JoinParts | app.py:84 | `"".join` of the optional history part and the three fixed parts is their concatenation in order. |
| ChatMemory.AssemblePrompt | app.py:76-84 | The successive `prompt_parts` appends and the join give the prompt: history (when non-empty), then the context section, the question section and the instruction. |
| ChatMemory.SplitSections | app.py:80-82 | A header with the context, the question and the instruction, split into lines: the header, the context's lines, an empty line, the question's lines, an empty line and the instruction. |
| ChatMemory.SectionLinesAll | app.py:80-82 | For any context and question, the part after the history reads as the context header, the context's lines, an empty line, the lines of the question line, an empty line and the instruction. |
| ChatMemory.SectionLines | app.py:80-82 | When the question holds no line break, the part after the history reads as the context header, the context's lines, an empty line, the single question line, an empty line and the instruction. |
| ChatMemory.PromptLinesAll | app.py:62-84 | For any texts, the whole prompt line by line: the lines of the earlier messages in stored order (if any), then the context, the question's lines and the instruction as the last line. The current question's lines come only after the context. |
| ChatMemory.PromptLines | app.py:62-84 | When neither a stored content nor the question holds a line break, the whole prompt line by line: one line per earlier message in order (if any), then the context, the single question line and the instruction. |
| ChatMemory.IsTruthy | app.py:55 | Python truthiness of `session_id`: `None` and `""` are false, every other string is true. |
| ChatMemory.Prior | app.py:57-58 | The messages stored for the session, or the empty list for a session not seen yet. |
| ChatMemory.TurnTail | app.py:70-99 | Appending the question and then the answer, truncating after each, equals truncating the conversation extended by both. The result ends with the question followed by the answer. |
| ChatMemory.BoundedUpdate | app.py:72-74 | Replacing one session's list by one within the limit keeps every session within the limit. |
| ChatMemory.AfterQuery | app.py:55-99 | With a truthy session id, that session holds the last 5 messages of its earlier conversation plus the question and the answer, ending with those two. With None or "" the store is unchanged. |
| ChatMemory.AfterQuestion | app.py:55-92 | When generation raises after the question is recorded: with a truthy session id, that session holds at most 5 messages and ends with the question, with no answer after it. With None or "" the store is unchanged. |
| ChatMemory.AnswerCompletesQuestion | app.py:70-99 | An answered request is the unanswered one followed by recording the answer: appending the answer to what `AfterQuestion` leaves, then truncating, gives `AfterQuery`. |
| ChatMemory.AfterQueryFrame | app.py:55-95 | A request adds at most its own session, leaves every other session untouched and keeps all sessions within 5 messages. |
| ChatMemory.TracksAppend | app.py:70-74 | Appending and truncating keeps the stored list equal to the last 5 messages of the grown conversation. |
| ChatMemory.QuestionStore | app.py:55-74 | Initialising the session and recording the question together give the store `AfterQuestion` describes, and the log gains just the question. |
| ChatMemory.TurnStore | app.py:55-99 | Initialising the session, recording the question and recording the answer together give the store `AfterQuery` describes. |
| ChatMemory.ChatHistoryStore.constructor | app.py:24 | `chat_history` starts empty. |
| ChatMemory.ChatHistoryStore.OpenSession | app.py:55-58 | A session not yet seen is created with an empty list. An existing session is left as it was. The result is the session's stored messages. |
| ChatMemory.ChatHistoryStore.Record | app.py:70-74 | One append followed by the slice to the last 5. Only this session changes, and the store still tracks the conversation. |
| ChatMemory.ChatHistoryStore.Query | app.py:38-101 | The prompt is built from the history stored before this request, then the context, the question and the instruction. The answer is the model's text, or none when generation raises. The new store is `AfterQuery` of the old one when generation returns, and `AfterQuestion` when it raises, so the session keeps the unanswered question. The per-session invariant is kept. |
| ChatWidget.IsJsWhitespace | static/script.js:92 | The characters `trim()` removes: the ECMAScript WhiteSpace and LineTerminator code points. |
| ChatWidget.TrimStart | static/script.js:92 | The result is a suffix of the input; every dropped character is whitespace; the result does not start with whitespace. |
| ChatWidget.TrimEnd | static/script.js:92 | The result is a prefix of the input; every dropped character is whitespace; the result does not end with whitespace. |
| ChatWidget.Trim | static/script.js:92-93 | `trim()` is empty exactly when the input is all whitespace. Otherwise it neither starts nor ends with whitespace. The result is always a contiguous slice of the input. |
| ChatWidget.TrimIdempotent | static/script.js:92 | Trimming twice is the same as trimming once. |
| ChatWidget.TrimStartPadded | static/script.js:92 | Leading whitespace in front of a non-blank start is exactly what is dropped. |
| ChatWidget.TrimEndPadded | static/script.js:92 | Trailing whitespace after a non-blank end is exactly what is dropped. |
| ChatWidget.TrimPadded | static/script.js:92 | Trimming a text padded with whitespace gives back the text. |
| ChatWidget.LoadingCountAppend | static/script.js:53-86 | The placeholder count of a concatenation is the sum of the counts. |
| ChatWidget.MessagesAppend | static/script.js:44 | The messages of a concatenation are the messages of each part, in order. |
| ChatWidget.RemoveFirstLoading | static/script.js:80-86 | With no placeholder, the transcript is left as it was. |
| ChatWidget.RemoveFirstLoadingCount | static/script.js:80-86 | With a placeholder present, exactly one entry goes and it is a placeholder. |
| ChatWidget.RemoveFirstLoadingMessages | static/script.js:80-86 | Removing the placeholder leaves every message in place and in order. |
| ChatWidget.RemoveFirstLoadingAfter | static/script.js:82-84 | `getElementById` finds the first placeholder: entries before it are untouched. |
| ChatWidget.IsOk | static/script.js:118 | `response.ok`: the status is in 200-299. |
| ChatWidget.BotReply | static/script.js:118-140 | The reply for each outcome. A network failure, a non-OK status, a body that is not JSON, or a `null` body gives the error text. An OK response whose `answer` is a non-empty string gives that answer. An OK response with no `answer`, an empty one, or a body that is not an object gives the no-answer text. The reply is never empty. |
| ChatWidget.SettleKeepsMessages | static/script.js:124-140 | Replacing the trailing placeholder by the reply leaves the earlier messages as they were and adds the reply after them. |
| ChatWidget.Widget.constructor | static/script.js:13-19 | A page starts idle with its session id fixed, an empty transcript and submit usable. |
| ChatWidget.Widget.AddMessage | static/script.js:22-50 | `addMessage` appends exactly one message, from the user or the bot, at the end. |
| ChatWidget.Widget.ShowLoadingMessage | static/script.js:53-78 | `showLoadingMessage` appends the placeholder at the end. |
| ChatWidget.Widget.RemoveLoadingMessage | static/script.js:80-86 | `removeLoadingMessage` removes the first placeholder, or does nothing when there is none. |
| ChatWidget.Widget.Send | static/script.js:95-116 | In order: append the question, clear the input, disable submit and mark it loading, show the placeholder, send `{ q, session_id }` with the page's session id. |
| ChatWidget.Widget.BeginSubmit | static/script.js:89-116 | Blank input changes nothing and sends nothing. Otherwise the trimmed question is appended and sent, and the page awaits the response. |
| ChatWidget.Widget.HandleOutcome | static/script.js:117-140 | Whatever the outcome, the placeholder is removed once and exactly one bot message with `BotReply` is appended. |
| ChatWidget.Widget.Resolve | static/script.js:117-146 | The placeholder is replaced by the bot's reply and submit is usable again. The input is left alone. The page's invariant holds again. |
| ChatWidget.Widget.Submit | static/script.js:89-147 | The whole handler: blank input changes nothing. Otherwise the page gains the question and then the reply, the input is cleared and submit is usable again. |
| ChatWidget.AnsweredRun | static/script.js:89-147 | A padded question answered by the server yields a request with the trimmed question and the page's session id, and the page shows exactly the question and the answer. |
| ChatWidget.BlankRun | static/script.js:92-93 | Whitespace-only input sends nothing and leaves the page and the input as they were. |
| ChatWidget.TwoQuestionsRun | static/script.js:13-147 | Two typed questions on one page: each request carries the trimmed text and the same session id, and the page shows each trimmed question followed by its reply, in order. |

## Left out

- The ChromaDB query and the Ollama call: the retrieved context and the generated text are parameters of `Query`. A failed generation is the `None` case of that parameter, not an exception, and the HTTP error response FastAPI then sends is not modelled.
- The indexing at `app.py:45`, which fails on an empty inner result list: it is part of retrieval, which the model takes as a parameter.
- The FastAPI application, `read_root`, the static mount and pydantic's request parsing: `Query` receives the already-parsed `q` and `session_id`.
- Concurrent requests interleaving on `chat_history`: each `Query` runs as one atomic step.
- Role values other than "user" and "assistant": the handler stores only those two. `RoleLabel` labels any role other than "user" as "Assistant", as the source does.
- How the session id is generated (`crypto.randomUUID`, or the timestamp and random fallback): it is a constructor parameter of `Widget`.
- DOM rendering: avatars, CSS classes, scrolling and focus. The transcript records only who sent each message, its text, and where the placeholder is.
- The Enter-key handler and a second submission while a request is in flight: the model handles one submission at a time (`BeginSubmit` and `Submit` require `inFlight == None`). The disabled button does not guarantee this, because the Enter-key handler dispatches `submit` directly (`static/script.js:155-160`).
- The HTTP exchange, JSON serialisation and `console.error`: the response is the `Outcome` parameter, and `RequestSent` records the request body.
- `answer` fields that are not strings: `addMessage` would show a truthy number or object in its string form, and a falsy one gives the no-answer text. `JsonObject` carries only a string answer or none, and a body that is a string, number, boolean or array (`JsonOther`) has no `answer`.
- The welcome message of the page markup: a page's transcript starts empty.
