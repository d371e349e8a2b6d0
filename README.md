# Meeting recorder: the chunk sequencer, its session table and its broadcast

This project models the core of a meeting recorder that takes audio chunks over
HTTP, transcribes them and pushes transcript and summary updates over WebSockets.
It proves properties of that model in Dafny.

The core is the per-session **reorder-and-drain sequencer**, `ChunkProcessor` in
app/workers.py:
- a chunk numbered below the session's `expected_seq` is ignored;
- a chunk numbered above it is buffered;
- the expected chunk is converted, transcribed, appended to the transcript,
  possibly summarized, and counted;
- after that, every buffered chunk that has become next in line is taken out of
  the buffer and processed the same way.

The rest of the model covers:
- the session table it acts on, `SessionStorage` in app/storage.py;
- the list-based broadcaster, `WebSocketManager` in app/main.py;
- the admission checks of the upload handler and the 404 answers of the transcript
  and summary endpoints;
- the length guard and the sentence-extracting fallback of the summarizer, in
  app/summarizer.py.

Modules, one per file:

- `Wrappers` (wrappers.dfy): `Option`, and `Result` with an HTTP status as the error.
- `Text` (text.dfy): the Python string built-ins the core relies on.
  - `split`, `split()` and the word count;
  - `strip`, `join`, `rfind`;
  - the pathlib suffix, `lower`;
  - `f"{n:05d}"` and its inverse.
- `Config` (config.dfy): the constants of app/config.py.
- `Summarizer` (summarizer.dfy): `summarize`, `_fallback_summary` and `quick_summary`.
  LexRank is an oracle that returns the summary, or `None` when it raises.
- `Storage` (storage.dfy): the session record and the table.
  - Each update is a function on table values.
  - The class `SessionStorage` has a `sessions` field that its methods update in
    place, and each method is proved equal to the function for its update.
- `Sockets` (sockets.dfy): the three broadcast messages, and `broadcast` as a pure
  pass over the connection list.
  - The class `WebSocketManager` keeps its two loops: the send loop and the
    disconnect loop.
  - A log of every send attempt makes the delivery order observable.
- `Workers` (workers.dfy): the sequencer.
  - The functions `Admit`, `Drain` and `Finalize` say what one call does to a
    session: the new record and the messages sent, in order.
  - The class `ChunkProcessor` follows the source statement by statement.
  - `process_chunk` and `_process_buffered_chunks` are mutually recursive methods,
    as in the source; the drain loop terminates because each pass removes a
    buffer entry.
  - Each method is proved to leave the table and the broadcaster exactly as those
    functions say.
- `Ordering` (ordering.dfy): the guarantee over a whole recording. Chunks may
  arrive in any order and any number of times. Provided every arriving chunk was
  saved under a non-empty path and converts, the session still ends up with
  `expected_seq` at the first number that has not arrived, the texts of all
  earlier chunks in sequence order, and the rest buffered. A chunk that fails
  conversion stalls the sequence instead (see below).
- `Api` (api.dfy): the upload checks (size first, then extension), the 404
  answers, and the `upload_chunk` and `end_session` handlers.

The outside world is a value of type `Env`:
- `convert`: whether ffmpeg succeeds;
- `transcribe`: what Vosk hears in a chunk;
- `flush`: the recognizer's final text;
- `lexRank`: the LexRank summary, or `None` when it raises;
- `deliver`: whether `send_text` succeeds for a socket.

Time is an integer `now`, given to each call.

### Behaviour of the code that is easy to misread

- **Conversion failure.** When conversion fails, `process_chunk` returns before
  `increment_expected_seq` (app/workers.py:53-56). The chunk is not counted, and
  `expected_seq` does not move past it. An implementation that skipped a failed
  chunk would instead carry on with the next number. The model follows the code:
  - the sequence stalls at that chunk (`AdmitKnown`, `DrainStalls`);
  - during a drain the failed chunk has already been removed from the buffer, so
    it is lost (`DrainBuffer`, `DrainConsumes`). Only a new upload of that
    sequence number can move the session on. In the model that upload converts
    exactly when `convert` says so for its path (see "## Left out").
- **Unknown session.** Every storage call is a silent no-op for an unknown
  session, and `get_expected_seq` answers 0. The handlers do not reject such a
  session. So for an unknown session:
  - chunk 0 is still converted and transcribed;
  - its text is still broadcast, with an empty full transcript (`Admit`);
  - `finalize_session` still announces the session as ended with an empty
    transcript and summary (`OtherSessionsUntouched`).
- **Finalization threshold.** At finalization a summary is forced once the
  transcript has 10 or more words (`>= 10`). It is stored and broadcast even
  when it is empty (`FinalizeAnnounces`).

## Model

| member | source | states |
|---|---|---|
| Text.WordsAppend | app/storage.py:70-78 | appending `" " + text` appends exactly the words of `text`: words never merge across the join, and the counts add up |
| Text.Format05dRoundTrip | app/storage.py:52 | the 5-digit zero-padded number reads back as the same number, negative numbers included |
| Storage.NewSession | app/storage.py:28-39 | defines the record `create_session` stores: no transcript, summary or chunks yet, `expected_seq` 0, nothing buffered, active, both clocks at `now`; `NewSessionSound` states its invariants |
| Storage.WithTranscript | app/storage.py:65-82 | defines `update_transcript` on the table; `UpdateTranscriptRecounts` states what it changes |
| Storage.WithSummary | app/storage.py:84-94 | defines `update_summary` on the table; `UpdateSummaryReplaces` states what it changes |
| Storage.Bumped | app/storage.py:162-165 | defines `increment_expected_seq` on the table; `IncrementAddsOne` states what it changes |
| Storage.Counted | app/storage.py:55-57 | defines the chunk count of `save_chunk` on the table; `CountedAddsOne` states what it changes |
| Storage.CountedAddsOne | app/storage.py:55-57 | a known session's `chunks_received` rises by exactly 1 and nothing else changes; an unknown session leaves the table as it was |
| Storage.Buffered | app/storage.py:167-170 | defines `buffer_future_chunk` on the table; `BufferLastWriteWins` states what it changes |
| Storage.Unbuffered | app/storage.py:182-185 | defines `remove_buffered_chunk` on the table; `RemoveDropsOneKey` states what it changes |
| Storage.MarkedEnded | app/storage.py:126-131 | defines `mark_session_ended` on the table; `MarkEndedSetsStatus` states what it changes |
| Storage.NewSessionSound | app/storage.py:28-39 | a new record's word count agrees with its empty transcript, and its buffer is empty |
| Storage.ChunkNameInjective | app/storage.py:52 | two different sequence numbers never get the same chunk file name |
| Storage.ChunkPathKeepsExtension | app/storage.py:50-52 | for an extension made of a dot and at least one further character, none of them a dot or slash, a saved chunk's path has that extension as its pathlib suffix, for any session and sequence number |
| Storage.Retranscribe | app/storage.py:70-78 | after the assignment, the word count matches the transcript; an append adds exactly the words of the text |
| Storage.BufferedChunk | app/storage.py:172-180 | a chunk is returned exactly when the session is known and holds a non-empty path for that number, and it is that path |
| Storage.SummaryDue | app/storage.py:108-124 | the trigger is false for an unknown session and true at the word threshold; at 50 words or fewer only the threshold counts; between 51 words and the threshold only the elapsed time counts |
| Storage.SummaryPolicyMonotone | app/storage.py:116-122 | the trigger is level-triggered: more words and later times keep it on, and once the word threshold is reached it holds at every time |
| Storage.IncrementAddsOne | app/storage.py:162-165 | a known session's `expected_seq` rises by exactly 1 and nothing else changes; an unknown session leaves the table as it was |
| Storage.BufferLastWriteWins | app/storage.py:167-170 | buffering writes one key, the last write wins, and every other key, field and session is kept; nothing happens for an unknown session |
| Storage.RemoveDropsOneKey | app/storage.py:182-185 | removing deletes exactly that key and keeps the other paths; it is a no-op when the key or the session is missing |
| Storage.UpdateTranscriptRecounts | app/storage.py:65-78 | an append gives `old + " " + text`, a replace gives `text`, and the word count then matches; only that session's transcript and count change |
| Storage.UpdateSummaryReplaces | app/storage.py:84-90 | the summary is replaced and the summary clock reset to `now`; the transcript, the count and the sequencing state are untouched |
| Storage.MarkEndedSetsStatus | app/storage.py:126-131 | the status becomes ended and the end time is set, nothing else; an unknown session is left alone |
| Storage.SessionStorage.constructor | app/storage.py:15-16 | the table starts empty |
| Storage.SessionStorage.CreateSession | app/storage.py:18-44 | the entry is replaced by a fresh record, which is consistent and has nothing buffered; the session directory is returned |
| Storage.SessionStorage.SaveChunk | app/storage.py:50-59 | returns the `chunk_{seq:05d}{ext}` path and counts the chunk for a known session only |
| Storage.SessionStorage.UpdateTranscript | app/storage.py:65-82 | the table becomes `WithTranscript` of the old table |
| Storage.SessionStorage.UpdateSummary | app/storage.py:84-94 | the table becomes `WithSummary` of the old table |
| Storage.SessionStorage.GetTranscript | app/storage.py:96-98 | the session's transcript, or "" for an unknown session |
| Storage.SessionStorage.GetSummary | app/storage.py:100-102 | the session's summary, or "" for an unknown session |
| Storage.SessionStorage.ShouldGenerateSummary | app/storage.py:108-124 | the early returns compute exactly `SummaryDue` |
| Storage.SessionStorage.MarkSessionEnded | app/storage.py:126-131 | the table becomes `MarkedEnded` of the old table |
| Storage.SessionStorage.CleanupSession | app/storage.py:133-140 | the session's entry is removed, and only that entry |
| Storage.SessionStorage.GetExpectedSeq | app/storage.py:158-160 | the session's `expected_seq`, or 0 for an unknown session |
| Storage.SessionStorage.IncrementExpectedSeq | app/storage.py:162-165 | the table becomes `Bumped` of the old table |
| Storage.SessionStorage.BufferFutureChunk | app/storage.py:167-170 | the table becomes `Buffered` of the old table |
| Storage.SessionStorage.GetBufferedChunk | app/storage.py:172-180 | the result is `BufferedChunk`: `None` for an unknown session, a missing key or an empty path |
| Storage.SessionStorage.RemoveBufferedChunk | app/storage.py:182-185 | the table becomes `Unbuffered` of the old table |
| Sockets.Attempts | app/main.py:44-49 | one logged attempt per connection, so as many attempts as connections; `AttemptsAt` and `SendAppend` state their order |
| Sockets.Failed | app/main.py:44-49 | defines the `disconnected` list of the send loop; `FailedMembers` states which sockets it holds |
| Sockets.Survivors | app/main.py:36-53 | the connections a broadcast keeps, never more than before; `PublishKeepsReceivers` and `PruneFailed` state which ones and in what order |
| Sockets.RemoveEach | app/main.py:51-53 | defines the disconnect loop as `disconnect` of each collected socket in turn; `PruneFailed` states its result |
| Sockets.RemoveFirst | app/main.py:30-33 | `disconnect` drops the first occurrence of the socket, or changes nothing when the socket is absent |
| Sockets.Publish | app/main.py:36-53 | with no connection a broadcast does nothing; otherwise one attempt per connection is logged |
| Sockets.AttemptsAt | app/main.py:44-49 | the i-th send attempt goes to the i-th connection, so delivery follows list order and a failure does not stop the later sends |
| Sockets.FailedMembers | app/main.py:44-49 | a socket is collected for disconnection exactly when it is connected and its send failed |
| Sockets.PruneFailed | app/main.py:51-53 | disconnecting the collected sockets one by one leaves exactly the sockets that received the message, in their original order |
| Sockets.PublishKeepsReceivers | app/main.py:36-53 | after a broadcast, the connections are exactly the old ones that received the message |
| Sockets.WebSocketManager.constructor | app/main.py:21-22 | no connections at first |
| Sockets.WebSocketManager.Connect | app/main.py:24-27 | the socket is appended at the end of the list |
| Sockets.WebSocketManager.Disconnect | app/main.py:30-34 | the list becomes `RemoveFirst` of the old list, found by a search loop |
| Sockets.SendAppend | app/main.py:44-49 | the send attempts and failures over a list are those over its first part followed by those over the rest |
| Sockets.WebSocketManager.SendAll | app/main.py:44-49 | the send loop logs one attempt per connection in list order, returns exactly the failed ones in that order, and leaves the list as it was |
| Sockets.WebSocketManager.DisconnectAll | app/main.py:51-53 | the disconnect loop leaves the list as `disconnect` applied to each collected socket in turn, and sends nothing |
| Sockets.WebSocketManager.Broadcast | app/main.py:36-53 | after the send loop and the disconnect loop, the connections are the old ones that received the message and the log grew by one attempt per old connection, in order |
| Summarizer.Summarize | app/summarizer.py:27-59 | defines `summarize`: the guard, LexRank, and the fallback when LexRank raises; `SummarizeCases` states its cases |
| Summarizer.QuickSummary | app/summarizer.py:72-77 | defines `quick_summary` as `summarize` with one sentence; `QuickSummaryOneSentence` states its result |
| Summarizer.Clean | app/summarizer.py:66 | every kept piece is non-empty and stripped, and there are no more pieces than before |
| Summarizer.Sentences | app/summarizer.py:65-66 | every sentence is non-empty, stripped and free of dots |
| Summarizer.PyPrefix | app/summarizer.py:69 | the slice `[:n]` is a prefix of length `min(n, len)` for `n >= 0`, and of length `max(len + n, 0)` for negative `n`, as in Python |
| Summarizer.FallbackSummary | app/summarizer.py:61-70 | the fallback always ends with a dot, and is exactly "." when the text has no sentence |
| Summarizer.SentencesOfJoined | app/summarizer.py:70 | splitting the joined sentences again gives back exactly those sentences |
| Summarizer.FallbackKeepsLeadingSentences | app/summarizer.py:65-70 | the fallback's sentences are the leading `sentence_count` sentences of the text, in their original order, and there are at most that many |
| Summarizer.FallbackIdempotent | app/summarizer.py:61-70 | applying the fallback to its own output changes nothing |
| Summarizer.SummarizeCases | app/summarizer.py:38-59 | empty text, or text under 50 characters once stripped, gives ""; otherwise the result is LexRank's summary, or, when LexRank raises, the non-empty fallback of the leading sentences |
| Summarizer.QuickSummaryOneSentence | app/summarizer.py:72-77 | the quick summary is "" for short text, and the fallback keeps at most one sentence |
| Workers.Record | app/workers.py:61-74 | defines the append, the transcript update and the trigger-driven summary for a non-empty text; `AdvanceMessages` and `RecordInSteps` state its effect |
| Workers.Advance | app/workers.py:59-77 | transcribing, recording and counting the expected chunk leave the buffer as it was; `AdvanceTranscript` and `AdvanceMessages` state the rest |
| Workers.Drain | app/workers.py:124-137 | defines `_process_buffered_chunks` with its nested `process_chunk` calls on one record; `DrainCounted`, `DrainHalts`, `DrainBuffer` and `DrainTranscript` state its result |
| Workers.Admit | app/workers.py:26-83 | defines `process_chunk` on the table together with the messages it sends; `AdmitKnown`, `AdmitAdvances` and `OtherSessionsUntouched` state its result |
| Workers.Flushed | app/workers.py:188-191 | defines the flush step of `finalize_session`; `FlushAppends` states its result |
| Workers.ForcedSummary | app/workers.py:193-200 | defines the forced summary of `finalize_session`; `ForcedSummaryCases` states its result |
| Workers.FinalizeKnown | app/workers.py:183-213 | defines `finalize_session` on one record; `FinalizeAnnounces` states its result |
| Workers.Finalize | app/workers.py:183-213 | defines `finalize_session` on the table together with the messages it sends; `FinalizeAnnounces` and `OtherSessionsUntouched` state its result |
| Workers.SummaryStep | app/workers.py:139-160 | nothing is sent under 30 words; with 30 words or more and a non-empty summary, that summary is stored with time `now` and broadcast; an empty summary is dropped; only the summary fields ever change |
| Workers.AdmitKnown | app/workers.py:26-80 | a stale chunk changes nothing; a future chunk is only buffered at its number; an expected chunk that fails conversion changes nothing |
| Workers.AdvanceCounts | app/workers.py:59-77 | a converted expected chunk raises `expected_seq` by exactly 1, appends its text if there is any, and keeps the word count consistent |
| Workers.AdvanceTranscript | app/workers.py:59-77 | a converted expected chunk raises `expected_seq` by exactly 1 and appends `" " + text` when the recognizer heard something, nothing otherwise |
| Workers.AdvanceMessages | app/workers.py:61-74 | a transcript update with the full transcript is sent exactly when there is text; a summary follows exactly when the trigger held after the append, there were 30 words and the summary is non-empty, and it is then stored with time `now` |
| Workers.WordsOfSpoken | app/workers.py:61-77 | the transcript's words after a run of chunks are the old words followed by each chunk's words, in sequence order |
| Workers.DrainUnroll | app/workers.py:124-137 | one pass of the drain removes the chunk at `expected_seq` from the buffer, counts it, appends its text and continues from the next number |
| Workers.DrainStops | app/workers.py:124-137 | the drain never moves `expected_seq` back, never grows the buffer, and ends with nothing usable at the new `expected_seq` |
| Workers.DrainTranscript | app/workers.py:124-137 | the drain appends the texts of the chunks it counted, in sequence order |
| Workers.DrainStalls | app/workers.py:53-56 | without a usable, convertible chunk at `expected_seq` nothing is counted or sent; a chunk that failed conversion is still dropped from the buffer |
| Workers.DrainConsumes | app/workers.py:124-137 | the drain counts exactly the consecutive buffered, convertible chunks from `expected_seq`, and stops at the first missing or failing one |
| Workers.DrainCounted | app/workers.py:124-137 | every chunk the drain counted was buffered with a non-empty path and converted |
| Workers.DrainHalts | app/workers.py:124-137 | if a chunk is buffered where the drain stopped, its conversion failed |
| Workers.DrainNeverBack | app/workers.py:124-137 | the drain never moves `expected_seq` back |
| Workers.DrainEndsClear | app/workers.py:124-137 | the drain ends with nothing usable buffered at the new `expected_seq` |
| Workers.DrainBuffer | app/workers.py:124-137 | after the drain the buffer holds every chunk outside the counted run, minus the one that failed conversion, each with its old path |
| Workers.DrainIsAdmit | app/workers.py:133-137 | a pass of the drain is `process_chunk` on the chunk just taken out of the buffer |
| Workers.DrainSettles | app/workers.py:126-131 | after a drain, draining again does nothing, which is why the loop stops right after a nested call returns |
| Workers.AdmitAdvances | app/workers.py:49-80 | a converted expected chunk moves `expected_seq` past itself, appends the texts of every chunk from it up to the new `expected_seq` in sequence order, and leaves nothing usable at the new `expected_seq` |
| Workers.AdmitKeepsInvariants | app/workers.py:26-80 | handling a chunk saved under a non-empty path keeps the word count consistent and keeps every buffered chunk ahead of `expected_seq` with a path |
| Workers.AdmitMonotone | app/workers.py:26-80 | `expected_seq` never goes down, the old transcript stays a prefix, and the word count never goes down |
| Workers.FinalizeAnnounces | app/workers.py:183-213 | finalization appends the flushed text; it forces a summary exactly when the transcript has at least 10 words, storing it even when empty; it marks the session ended; its last message is `session_ended` with the final transcript and summary |
| Workers.FlushAppends | app/workers.py:188-191 | the recognizer's final text, when non-empty, is appended after a space; only the transcript and its word count change, and they stay consistent |
| Workers.ForcedSummaryCases | app/workers.py:193-200 | the forced summary is sent exactly when the transcript has at least 10 words; it is then stored, even when empty, with time `now`; otherwise the session is unchanged |
| Workers.OtherSessionsUntouched | app/workers.py:26-83 | processing a chunk, or finalizing, changes no other session; an unknown session leaves the table as it was and is still announced as ended |
| Workers.RecordInSteps | app/workers.py:61-74 | the append, broadcast and trigger-driven summary on the table are `Record` on that session's record |
| Workers.AdvanceKeepsBuffer | app/workers.py:59-77 | transcribing, recording and counting leave the buffer's size as it was |
| Workers.AdmitInSteps | app/workers.py:26-80 | reading `process_chunk` statement by statement on the table agrees with `Admit`, for known and unknown sessions |
| Workers.DrainPassAt | app/workers.py:126-137 | with no usable chunk at `expected_seq` the drain does nothing; otherwise removing and processing that chunk is the whole drain, nothing is left to drain, and the buffer shrank |
| Workers.FinalizeInSteps | app/workers.py:188-213 | reading `finalize_session` statement by statement on the table agrees with `Finalize` |
| Workers.ChunkProcessor.constructor | app/workers.py:18-24 | the processor works on the given store and, if one is set, the given broadcaster |
| Workers.ChunkProcessor.Send | app/workers.py:173-181 | with a broadcaster set, one broadcast of the message; without one, nothing is sent |
| Workers.ChunkProcessor.BroadcastTranscriptUpdate | app/workers.py:162-171 | broadcasts the new text together with the session's current full transcript |
| Workers.ChunkProcessor.BroadcastSummary | app/workers.py:173-181 | broadcasts the summary message |
| Workers.ChunkProcessor.ConvertToWav | app/workers.py:85-122 | the converted WAV path when ffmpeg succeeds, `None` otherwise |
| Workers.ChunkProcessor.GenerateAndBroadcastSummary | app/workers.py:139-160 | the table and the broadcast become those of `SummaryAt` |
| Workers.ChunkProcessor.RecordText | app/workers.py:61-74 | the table and the broadcast become those of `RecordedAt` |
| Workers.ChunkProcessor.ProcessChunk | app/workers.py:26-83 | the table and the messages broadcast, in order, are those of `Admit` |
| Workers.ChunkProcessor.ProcessBufferedChunks | app/workers.py:124-137 | the loop leaves the table and the broadcast as `DrainAt` says, and terminates because each pass shrinks the buffer |
| Workers.ChunkProcessor.FlushRecognizer | app/workers.py:188-191 | the table becomes `FlushedAt`: a non-empty final text is appended |
| Workers.ChunkProcessor.ForceSummary | app/workers.py:193-200 | the table and the broadcast become those of `ForcedAt` |
| Workers.ChunkProcessor.FinalizeSession | app/workers.py:183-216 | the table and the messages broadcast, in order, are those of `Finalize` |
| Ordering.ArrivalKeepsReassembled | app/workers.py:26-80 | one more convertible chunk keeps the session reassembled: `expected_seq` is the least number not yet arrived, the transcript holds the texts before it in order, and the buffer holds exactly the chunks that arrived ahead of it |
| Ordering.StaleArrival | app/workers.py:38-41 | a chunk below `expected_seq` keeps the session reassembled without changing it |
| Ordering.EarlyArrival | app/workers.py:43-47 | a chunk above `expected_seq` keeps the session reassembled by joining the buffer |
| Ordering.ExpectedArrival | app/workers.py:49-80 | the expected chunk, and the run of buffered chunks after it, keep the session reassembled once counted and appended |
| Ordering.ReplayReassembles | app/workers.py:26-137 | provided every arrival has a non-empty path and converts, from a fresh session, any order of arrival, with repeats, leaves the session reassembled from the numbers that arrived |
| Ordering.RecordingReassembled | app/workers.py:26-137 | provided every arrival has a non-empty path and converts, once chunks `0 .. n-1`, and nothing beyond, have all arrived in any order, `expected_seq` is `n`, the buffer is empty, and the transcript is the texts of chunks `0 .. n-1` in sequence order |
| Ordering.GapHoldsBack | app/workers.py:44-47 | provided every arrival has a non-empty path and converts, while a chunk is missing, `expected_seq` stays at or below it and every later chunk that arrived waits in the buffer |
| Api.CheckUpload | app/main.py:146-159 | an upload over 10 MB gets 413 before the extension is looked at; an unsupported lower-cased suffix gets 400; otherwise the lower-cased supported extension is accepted |
| Api.UploadChecksInOrder | app/main.py:146-159 | an oversized upload gets 413 whatever its name, and the verdict ignores the case of the extension |
| Api.AcceptedChunkKeepsFormat | app/main.py:154-162 | every accepted chunk is saved under a path whose suffix is its accepted extension |
| Api.TranscriptResponse | app/main.py:212-223 | 404 exactly when the transcript is empty, which includes an unknown session; otherwise the transcript |
| Api.SummaryResponse | app/main.py:226-237 | 404 exactly when the summary is empty, which includes an unknown session; otherwise the summary |
| Api.SpeechMakesTranscriptAvailable | app/main.py:212-218 | once an expected chunk with recognized text is processed, the transcript is no longer answered with 404 |
| Api.FinalSummaryAvailable | app/main.py:226-232 | after finalization, a transcript of at least 10 words and 50 characters has a summary unless LexRank answered with an empty one |
| Api.UploadChunk | app/main.py:125-177 | a refused upload changes nothing and returns the check's status; an accepted one is counted, saved under its path and processed as `Admit` says |
| Api.EndSession | app/main.py:180-206 | finalizes as `Finalize` says and answers with the final transcript and summary, which are those of the `session_ended` broadcast |

## Left out

- The ffmpeg subprocess, the Vosk recognizer and the LexRank library are oracles in
  `Env`. Their internals are outside the model.
- hybrid_summarizer.py and app/transcriber.py are not part of this model.
- Exceptions are not modelled. This covers failing file writes, a failing
  recognizer or LexRank, and the `try`/`except` blocks that would stop
  `process_chunk`, `_generate_and_broadcast_summary` or `finalize_session` partway
  through. The one exception that is modelled is LexRank raising, which selects
  the fallback summary.
- File I/O is not modelled. This covers directory creation, chunk bytes,
  transcript.txt, summary.txt, metadata.json and `rmtree`. Only the names of the
  chunk files are modelled.
- The download endpoints are left out, because they depend only on whether those
  files exist.
- Concurrency is not modelled: `asyncio.create_task`, and interleaving at `await`
  points. Calls run one at a time.
- Api.UploadChunk: processes the chunk to completion before returning, whereas the
  handler only schedules the processing and returns at once.
- Clock times are integers, and one call uses one `now` throughout, including the
  nested drain. The source reads a float clock at each storage call. ISO
  timestamps such as `created_at` and `ended_at` are integers too.
- `set_websocket_manager` becomes the constructor's `ws` parameter, set once.
  - `processing_tasks` is never used by the source and is left out.
- The `root`, `create_session`, `delete_session` and `list_sessions` endpoints are
  left out.
  - `root` returns a fixed JSON object.
  - `create_session` and `delete_session` forward to `create_session` and
    `cleanup_session` of the storage, which are modelled.
  - `list_sessions` forwards to the storage's `list_sessions`
    (app/storage.py:142-144), a read of every record in insertion order. That
    read is not modelled, because a Dafny `map` has no order.
- `get_session_metadata` (app/storage.py:104-106), a read of one record that
  `end_session` adds to its JSON answer, is not modelled.
- The WebSocket endpoint's receive loop with its ping/pong reply, CORS and uvicorn
  startup are transport plumbing and are left out.
- JSON encoding of messages is left out: a message is a datatype value, and a
  failing `send_text` is `deliver` returning false.
- `lower()` is modelled for ASCII letters only.
- The pathlib suffix is modelled for POSIX paths without a trailing slash.
- Storage.SessionDir: joins the sessions directory and the session id by string
  concatenation, whereas pathlib's `/` would restart at an absolute id
  (`SESSIONS_DIR / "/x"` is `/x`) and would drop an empty one. Session ids are
  taken to be non-empty relative names.
- The oracles in `Env` are fixed functions with no memory, which loses three
  behaviours of the source:
  - `flush` returns the same final text on every call. The source's
    recognizer is deleted on its first `finalize_session` and returns nothing
    afterwards, so in the model a second `end_session` appends the final text
    again.
  - `convert` depends only on the session, the sequence number and the path. A
    re-upload of a chunk under the same file name therefore fails exactly as the
    first upload did, and the recovery by re-upload is only captured when the
    new upload has a different extension.
  - `deliver` fixes each socket's outcome for each message. In the source every
    `send_text` can fail on its own, so the model does not capture a connection
    that receives a message once and fails it later.
