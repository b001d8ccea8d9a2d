# Chat session model of a Bedrock Converse chat page

The chat page (`simple_chatbot/main.py`) is a Streamlit front end that keeps a
conversation and its generation settings in the browser session and forwards
each user prompt to the Bedrock Converse API, either as one call or as a
stream. This project models its logic without the UI or the network:

- **Catalog** (`catalog.dfy`): the system-prompt presets and the model table,
  as maps with the source's exact keys and values.
- **Conversation** (`conversation.dfy`): messages with a role and a text; the
  collapse that the non-streaming path applies before sending. `RunHeads` is
  its specification: the first message of every same-role run. `FormatMessages`
  is the source's loop, which compares each message with the last one *kept*,
  and is proved equal to `RunHeads`.
- **Converse** (`converse.dfy`): the non-streaming reply as nested optional
  fields, a call that returns a reply or raises a ClientError, and the
  extraction of the first content block's text, with its three outcomes.
- **Streaming** (`streaming.dfy`): the event stream as a finite sequence of
  events followed by an end or a ClientError. `Chunks` is what the generator
  yields. `ConsumeChunks` is the page's accumulation loop with the partial
  frames it renders.
- **Chat** (`chat.dfy`): the `Session` class holding the session-state fields.
  It has one method per callback, the two response generators, and
  `SubmitPrompt`, which runs one user turn. `Valid()` is the session
  invariant. It requires that the model and the preset are keys of their
  tables. It also requires that the system prompt equals the remembered custom
  text while "Custom" is selected.
- **Scenarios** (`scenarios.dfy`): concrete runs on a new session. They cover
  the custom-prompt round trip, streamed, partial, empty, well-formed and
  malformed turns, and the stored out-of-range temperature.

Widget values (the selectboxes, sliders, text area and chat input) are method
parameters. The provider's answer is a `ProviderAnswer` value. Its variant
also stands for the "Use streaming responses" checkbox:
- `Whole` is a `converse` result or ClientError.
- `Streamed` is a `converse_stream` event stream that ends or fails with a
  ClientError.
- `WholeRaised` and `StreamRaised` stand for an exception other than
  ClientError, such as a connection or read timeout. The page catches only
  ClientError, so such an exception ends the script run after the user message
  was stored. For `StreamRaised`, the exception comes after some events.

The model follows the code where it departs from what one might expect of it:

- Temperature and top_k are stored without any range check. The bounds exist
  only in the sliders (`TemperatureNotValidated`).
- A ClientError in the middle of a stream does not discard the text already
  received. The generator's `None` is skipped and the partial buffer is stored
  as the assistant message (`PartialStreamKept`).
- The streaming request sends the history uncollapsed; only the non-streaming
  request collapses it. So after a failed turn the next streaming request holds
  two user messages in a row (`FailedTurnThenStreamingTurn`).
- The non-streaming request keeps the first message of each same-role run. So
  after a failed turn the next non-streaming request sends the earlier prompt
  and drops the newest one (`FailedTurnThenWholeTurn`).
- Any exception other than a ClientError escapes the page. The turn then stores
  only the user message. Streamed text already shown is lost
  (`StreamAbortedDropsPartial`).
- A stream with no delta, or an empty reply text, stores no assistant message.
- The model, system-prompt, temperature and top_k callbacks assign only when
  the new value differs. With the session invariant this gives the same state
  as an unconditional update, and the contracts state it that way. The preset
  callback assigns the system prompt unconditionally.

## Model

| member | source | states |
|---|---|---|
| Catalog.ModelId | simple_chatbot/main.py:73-80 | a model's display name maps to a non-empty Bedrock model id from the table |
| Catalog.PresetText | simple_chatbot/main.py:66-71 | a preset's text is empty exactly for the "Custom" preset |
| Catalog.DefaultsAreKeys | simple_chatbot/main.py:66-91 | the initial preset and model are keys of their tables; there are 4 presets and 6 models |
| Conversation.FormatMessages | simple_chatbot/main.py:216-219 | the loop that keeps a message when it is first or differs in role from the last kept one returns exactly the run heads; the result alternates and starts with the first message |
| Conversation.RunHeadsKeepsFirst | simple_chatbot/main.py:218 | the collapse of a non-empty history keeps its first message first |
| Conversation.RunHeadsLastRole | simple_chatbot/main.py:218 | the last kept message has the role of the last input message, so comparing with the last kept message is comparing with the previous input message |
| Conversation.RunHeadsAlternate | simple_chatbot/main.py:215-219 | no two adjacent messages of the collapse share a role |
| Conversation.RunHeadsAreRunOpeners | simple_chatbot/main.py:216-219 | the collapse is, in order, the messages at strictly ascending positions, and these positions are exactly the run openers: one message, the first, per same-role run |
| Conversation.RunHeadsOfAlternating | simple_chatbot/main.py:216-219 | an already-alternating history is left unchanged |
| Conversation.RunHeadsIdempotent | simple_chatbot/main.py:216-219 | collapsing twice gives the same result as collapsing once |
| Conversation.CollapseExample | simple_chatbot/main.py:216-219 | roles user, user, assistant, assistant, assistant, user become user, assistant, user, keeping the first message of each run |
| Converse.WellFormed | simple_chatbot/main.py:232-234 | the reply built around a text has output, message and a non-empty content list |
| Converse.ReplyValue | simple_chatbot/main.py:235-244 | the generator returns a value exactly for the text outcome and None for both failures |
| Converse.ExtractTextIff | simple_chatbot/main.py:232-235 | extraction yields text t if and only if the call returned, output, message and a non-empty content are present, and the first block's text is t |
| Converse.ExtractMalformed | simple_chatbot/main.py:232-239 | a reply missing output, message or content is reported as unexpected structure and returns None |
| Converse.ExtractClientError | simple_chatbot/main.py:241-244 | a ClientError is reported with its diagnostic and returns None |
| Converse.ExtractWellFormed | simple_chatbot/main.py:232-235 | extracting a well-formed reply gives back its text |
| Streaming.DeltaTextAppend | simple_chatbot/main.py:257-259 | the delta text of a concatenated event stream is the concatenation of the parts' delta texts, in order |
| Streaming.OtherEventIgnored | simple_chatbot/main.py:257-258 | an event that is not a contentBlockDelta contributes nothing, wherever it occurs |
| Streaming.JoinedChunks | simple_chatbot/main.py:257-263 | the kept chunks of the generator concatenate to the delta texts of the events received, whether the stream ended or failed (the None is ignored) |
| Streaming.JoinedDeltaChunks | simple_chatbot/main.py:257-259 | the chunks yielded for the events concatenate to their delta texts |
| Streaming.ConsumeChunks | simple_chatbot/main.py:281-285 | the final buffer is the concatenation of the kept chunks (falsy chunks skipped); the frames are the in-loop renders of line 285; each is a non-empty prefix of the final buffer followed by the cursor; the last one is the final buffer with the cursor; there is none exactly when the buffer stays empty |
| Streaming.AssembleExample | simple_chatbot/main.py:257-259 | deltas "Hel" and "lo" assemble to "Hello" |
| Chat.ReplyOrEmpty | simple_chatbot/main.py:289-295 | the non-streaming buffer is non-empty only for a text outcome, and then equals the text |
| Chat.Session.constructor | simple_chatbot/main.py:83-100 | a new session has an empty history, the Default Assistant prompt, an empty custom text, Claude 3.5 Sonnet, temperature 0.5, top_k 100 and the Default Assistant preset selected, and is valid |
| Chat.Session.UpdateSelectedModel | simple_chatbot/main.py:103-107 | only the selected model changes, to the new key; the invariant holds |
| Chat.Session.UpdateSystemPrompt | simple_chatbot/main.py:109-115 | the system prompt becomes the new text; the remembered custom text follows it exactly while "Custom" is selected; nothing else changes |
| Chat.Session.UpdatePromptSelection | simple_chatbot/main.py:117-123 | "Custom" restores the remembered custom text; any other preset installs its own text; the remembered custom text and all other fields are unchanged |
| Chat.Session.UpdateTemperature | simple_chatbot/main.py:125-129 | only the temperature changes, to the given value, with no range check |
| Chat.Session.UpdateTopK | simple_chatbot/main.py:131-135 | only top_k changes, to the given value, with no range check |
| Chat.Session.ClearChatHistory | simple_chatbot/main.py:137-139 | the history becomes empty and every setting is unchanged |
| Chat.Session.GenerateResponse | simple_chatbot/main.py:213-244 | the request carries the collapsed, alternating history and the current model id, system prompt, temperature and top_k; a value is returned exactly when the reply has content, and it is the first block's text |
| Chat.Session.GenerateStreamingResponse | simple_chatbot/main.py:247-263 | the request carries the history uncollapsed; the chunks are the deltas then None on failure, and they join to the delta texts |
| Chat.Session.SubmitPrompt | simple_chatbot/main.py:266-299 | the user message is appended first; then one assistant message with the assembled text is appended exactly when that text is non-empty and no uncaught exception ended the run; earlier messages and all settings are unchanged; the request is collapsed only on the non-streaming path; a stream's text is kept after a ClientError; a completed stream ends with the closing render of the buffer without the cursor (line 286) |
| Scenarios.CustomPromptRoundTrip | simple_chatbot/main.py:109-123 | typing T under "Custom", choosing any preset and choosing "Custom" again gives system prompt T |
| Scenarios.FreshCustomRoundTrip | simple_chatbot/main.py:109-123 | on a new session the same round trip gives back T, and the preset in between shows its own text |
| Scenarios.StreamedTurn | simple_chatbot/main.py:257-299 | deltas "Hel", "lo" and a non-delta event store exactly one assistant message "Hello" |
| Scenarios.PartialStreamKept | simple_chatbot/main.py:257-299 | a delta "Par" followed by a ClientError stores "Par" as the assistant message |
| Scenarios.EmptyStreamTurn | simple_chatbot/main.py:281-299 | a stream with no delta stores only the user message |
| Scenarios.WholeReplyTurn | simple_chatbot/main.py:287-299 | a well-formed reply "Hello" stores exactly one assistant message "Hello" |
| Scenarios.MalformedReplyTurn | simple_chatbot/main.py:232-299 | a reply without content is an unexpected structure and stores only the user message |
| Scenarios.FailedTurnThenStreamingTurn | simple_chatbot/main.py:247-299 | after a streaming turn that fails with no text, the next streaming request holds two user messages in a row |
| Scenarios.FailedTurnThenWholeTurn | simple_chatbot/main.py:216-299 | after a non-streaming turn that fails with a ClientError, the next non-streaming request sends only the earlier user message |
| Scenarios.StreamAbortedDropsPartial | simple_chatbot/main.py:257-299 | a delta "Par" then an exception other than ClientError stores only the user message, though "Par" was shown with the cursor |
| Scenarios.WholeAbortedTurn | simple_chatbot/main.py:213-299 | a converse call that raises an exception other than ClientError stores only the user message |
| Scenarios.TemperatureNotValidated | simple_chatbot/main.py:125-129 | a temperature of 1.5 is stored as given |

## Left out

- Logging: `CustomLogger`, `setup_logger` and every log call (lines 8-37 and throughout). They are output only.
- The Streamlit page: page config, CSS, title, widgets, the history display loop (lines 44-59, 141-210), and the error notices and chat bubbles of a turn. Only the state changes they trigger are modelled.
- The `session_started` flag (lines 61-63). It only triggers a log line.
- The boto3 client and the `converse` / `converse_stream` calls (lines 39-42, 222-228, 249-255). They are library and network calls. Their result is an input of the model (`ProviderAnswer`), and the arguments they receive are the `Request` value.
- Floating-point temperature. It is a `real`, compared only for equality, as the callbacks do.
- Content blocks and deltas without a `text` key, such as tool-use blocks. In the source these raise a KeyError that nothing catches. In the model every block and delta carries text. The effect of that KeyError on the turn is the one `WholeRaised` and `StreamRaised` model, but it is not derived from the reply's shape.
- The laziness of the stream generator. The provider call is made when the first chunk is requested, and the model makes it before consuming. No other effect happens in between.
- `textwrap.shorten` (line 301). It is used only for a log line.
