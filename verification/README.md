# Chat relay bot: history, reply chunking and webhook intake

A Dafny model of the request path of a WhatsApp-style chat bot
(`chatbot_marce.py`). An inbound webhook call carries a `Body` and a `From`
field. The bot refuses a blank body. Otherwise it queues the interim notice
`"Procesando..."` for the sender and starts background processing. Processing
records the message in that user's bounded history. It then runs the language
model agent on the message and queues the reply, or the fallback
`"Error generando respuesta"`, in pieces of at most 1500 characters.

Modules, leaves first:

- `Wrappers`: `Option`, standing for Python's `None`.
- `PyStr`: Python's `str.strip()`, using the exact whitespace set of `str.isspace()`.
- `Chunker`: the `range(0, len(text), 1500)` slicing loop, as a pure function of the text.
- `History`: `user_histories` as `map<string, seq<Turn>>`, `record_history`, and Python's `h[-MEMORY_LIMIT:]`.
- `Outbox`: `enqueue_message(uid, body)` as an append of `Message(uid, body)` to one ordered sequence.
- `Chatbot`: `process_input`, the webhook, and the state they share (histories and outbox).

Environment pieces are parameters of the model:

- `MEMORY_LIMIT` is `memoryLimit: int`.
- `normalize` is `normalize: string -> string`.
- The agent (`get_agent()` plus `Runner.run_sync`) is `agent: string -> AgentRun`. It yields `Completed(final_output)` or `Raised`.
- The background thread runs to completion right after the webhook's own enqueue.

Behaviour of the code worth stating explicitly:

- The interim notice is enqueued on every accepted message. It is not conditional on a slow reply, and nothing cancels it (line 56).
- The agent receives only the new message, not the history (line 42). Only user turns are ever stored (line 36).
- An exception from the agent is not caught. The daemon thread ends after `record_history`, and nothing is enqueued; no apology message is sent (lines 41-42).
- `Chunks("")` is empty rather than one empty chunk. Line 43 makes that input unreachable.

## Model

| member | source | states |
|---|---|---|
| PyStr.Strip | chatbot_marce.py:51 | `Body.strip()` is the infix of the body left after removing whitespace at both ends. Everything outside it is whitespace, its ends are not whitespace, and it is empty exactly when the body is all whitespace |
| PyStr.LStrip | chatbot_marce.py:51 | the left half of `strip()`: drops exactly the leading whitespace and stops at the first non-whitespace character |
| PyStr.RStrip | chatbot_marce.py:51 | the right half of `strip()`: drops exactly the trailing whitespace and stops at the last non-whitespace character |
| Chunker.NumChunksBound | chatbot_marce.py:45 | `range(0, n, 1500)` visits chunk index k exactly when its start offset k*1500 is below n |
| Chunker.Chunks | chatbot_marce.py:45-46 | the chunk count is the ceiling of len/1500. Every chunk is non-empty and at most 1500 long, and every chunk but the last is exactly 1500 |
| Chunker.ConcatChunks | chatbot_marce.py:45-46 | joining the chunks in enqueue order gives back the text exactly |
| Chunker.ChunksConcat | chatbot_marce.py:45-46 | the inverse: any list of full 1500-character pieces followed by one non-empty piece of at most 1500 is what chunking its join produces |
| Chunker.ChunkAt | chatbot_marce.py:45-46 | chunk k is the consecutive slice of the text that starts at offset k*1500 |
| Chunker.FourThousand | chatbot_marce.py:45-46 | a 4000-character text gives exactly three chunks, of lengths 1500, 1500 and 1000 |
| History.KeepLast | chatbot_marce.py:37 | Python's `s[-limit:]` is a suffix of `s`. For limit at least 1 it has length min(limit, len). For limit 0 it is all of `s`. For a negative limit it drops the first -limit entries |
| History.RecordHistory | chatbot_marce.py:34-37 | recording adds `uid` as a key and leaves every other user's history unchanged. The new history is a suffix of the old history plus the user turn. With limit ≥ 1 its length is min(limit, old+1) ≤ limit. With limit ≥ 0 its last entry is the turn just recorded |
| History.RecordKeepsNewest | chatbot_marce.py:36-37 | with limit ≥ 1 the stored history is exactly the newest `limit` entries of old history plus the new turn, oldest evicted first |
| History.RecordAllKeepsNewest | chatbot_marce.py:34-37 | after any series of recordings for one user, that user's history is the newest `limit` turns of everything recorded, in original order; after a non-empty series the user id is a key of the map |
| History.RecordPreservesBounded | chatbot_marce.py:36-37 | if every stored history is within a positive limit, it stays so after recording |
| History.RecordOnlyUserTurns | chatbot_marce.py:36 | if every stored turn has role "user", it stays so after recording |
| Outbox.EnqueueAll | chatbot_marce.py:45-46 | repeated `enqueue_message(uid, body)` keeps the earlier queue as a prefix and appends one message per body, in order, each addressed to `uid` |
| Outbox.EnqueueAllAdds | chatbot_marce.py:46 | the appended messages all go to `uid`, and their bodies are the given bodies in order |
| Chatbot.ReplyText | chatbot_marce.py:43 | `res or "Error generando respuesta"` is never empty. It is the agent's output when that is a non-empty string, and the fallback when the output is `None` or empty |
| Chatbot.EnqueueChunks | chatbot_marce.py:45-46 | the loop over start offsets enqueues exactly the messages of `Chunks(text)`. It keeps the queue prefix, addresses everything to `uid`, and the bodies join back to `text` |
| Chatbot.ProcessInput | chatbot_marce.py:40-46 | processing records the message. If the agent raises, nothing is enqueued. Otherwise at least one message is enqueued after the old queue, all to `uid`, shaped as valid chunks, and their join is the reply or fallback |
| Chatbot.ReplyIgnoresHistory | chatbot_marce.py:42 | the enqueued reply does not depend on the stored history, because the agent is given only `msg` |
| Chatbot.Intake | chatbot_marce.py:50-58 | the status is 400 exactly when the body is blank, and then the state is unchanged and no job starts. Otherwise the status is 200, one "Procesando..." message is appended for the normalized sender, and a job with the stripped non-empty message starts |
| Chatbot.Webhook | chatbot_marce.py:50-58 | a blank body gives 400 with no enqueue and no history change. Otherwise the status is 200 and the stripped message is recorded. "Procesando..." is the first message enqueued whatever the agent does. If the agent returns, the messages after it are exactly `Chunks` of the reply or fallback, in order; if it raises, nothing follows. All go to the same user |
| Chatbot.WebhookOnlyUserTurns | chatbot_marce.py:36-42 | no webhook call stores a non-user turn; the agent's reply never enters the history |

## Left out

- `cargar`, the spreadsheet download and JSON conversion (lines 1-19): file and network I/O through libraries outside this model.
- `get_agent` and `Runner.run_sync` (lines 22-31, 42): the external language model. Their result is the `agent` parameter.
- The `/refresh` endpoint (lines 61-69): it reads an environment variable and resets process-global caches.
- Flask routing and app startup (lines 49, 71-72).
- The daemon thread of line 57: processing is modelled as running to completion right after the webhook's enqueue, with no interleaving with other requests.
- `normalize`, `enqueue_message`, `MEMORY_LIMIT` and `user_histories` are not defined in the shown text of `chatbot_marce.py` (an excerpt without its imports and globals) and are not part of this model. `normalize` is an opaque function parameter. `enqueue_message` is an append to the outbox. `MEMORY_LIMIT` is a parameter. `user_histories` is taken to be a `defaultdict(list)`, so an unknown user reads as an empty history.
- The outbound dispatch queue behind `enqueue_message` (rate limiting, retry and backoff, inter-send spacing): it does not appear in the modelled file.
- Logging (line 55).
- Python strings may hold lone surrogate code points; Dafny `char` values cannot, so such strings are outside the model. Lengths count code points in both.
- Chatbot.ProcessInput: `final_output` is taken to be a string or `None`. Python truthiness on other types is not modelled.
