# voice-memo: a verified model of the recording, transcription and summary flow

The app is a browser voice memo. You record audio. The recorder's analyser
drives a level meter. When you stop, the page sends the audio off for
transcription, asks a language model to summarise the transcript, and shows
the transcript with a summary, key points and a timeline.

This project models the logic of that flow in Dafny:

- **`OpenAi`** (`src/lib/openai.ts`): the empty-text check in
  `transcribeAudio`, and the reply parser in `summarizeText`.
  - The parser splits on `"\n\n"` into three blocks.
  - It keeps `"-"` lines and drops their first two characters.
  - It cuts each timeline entry at its first `":"`.
- **`Anthropic`** (`src/lib/anthropic.ts`): the API-key guard, the one
  `messages.create` request, and the reply parser.
  - The parser cuts at every `\d+\.`, drops empty pieces and keeps non-blank lines.
  - It strips a `-` or `*` bullet.
  - It finds the first `[\d:]+` run as the time and takes that token out of the text.
- **`AssemblyAi`** (`src/lib/assemblyai.ts`): the key guard, upload, job
  creation, and the poll loop that runs until the first terminal status.
- **`AudioRecorder`** (`src/lib/audioRecorder.ts`): the recorder singleton as
  a class over its five nullable fields.
  - Start is self-healing: it closes any open session first.
  - Stop throws when idle and otherwise clears every field.
  - The meter maps the analyser's byte buffer to at most 50 levels in [0, 1].
- **`Home`** (`src/components/home.tsx`): `handleRecordingStart` and
  `handleRecordingStop` as methods over the page state.
  - Every setter call is logged as an update.
  - The lemmas state what the logged updates do to the progress and the displayed recording.
- **`JsStrings`** and **`Common`** hold what the parsers share.
  - `JsStrings`: the JavaScript string operations (`trim`, `indexOf`, `split`, `join`, `replace`).
  - `Common`: the `filter(...).map(...)` chain.

The parsers are modelled as pure functions of the reply text. Each has a
"render, then parse" round trip (`ParseRender`) as its partner. The loop,
the recorder and the page are imperative methods proved against
specification functions (`PollOutcome`, `StopResult`, `Normalize`,
`StopUpdates`/`Replay`). Lemmas alongside state those functions' properties.

Calls into vendor SDKs and browser APIs are parameters holding their
outcome: the value they would resolve to, or the error they reject with.
The constructions that are assumed to succeed are listed under "Left out".
Error values name the JavaScript failure:

- `Thrown(message)`: the code's own `throw new Error(message)`.
- `SectionMissing(i)`: the TypeError from reading `sections[i]` when it is `undefined`.
- `ContentMissing`: splitting a `null` reply.
- `Rejected`: a call that rejected.

## Model

| member | source | states |
|---|---|---|
| OpenAi.TranscribeAudio | src/lib/openai.ts:23-27 | Returns exactly when the response text is present and non-empty, and then returns it unchanged. An empty or missing text throws "No transcription received". A rejected request propagates its error. |
| OpenAi.ParseReply | src/lib/openai.ts:52-70 | Fails exactly when the reply has fewer than three `"\n\n"`-separated blocks. The error names the first missing block index. |
| OpenAi.SummarizeText | src/lib/openai.ts:51-52 | A rejected request propagates. A `null` content is a TypeError. Otherwise the result is the parse of the content. |
| OpenAi.ParseIgnoresLaterBlocks | src/lib/openai.ts:52-70 | Once the reply has a fourth block, appending any text changes nothing. Only blocks 0-2 are read. |
| OpenAi.LineByLine | src/lib/openai.ts:55-66 | Blocks are read line by line, in order. A line gives one entry when its trimmed form starts with "-", and none otherwise. |
| OpenAi.EntryCount | src/lib/openai.ts:55-66 | Each list has exactly as many entries as its block has lines whose trimmed form starts with "-". |
| OpenAi.TimestampAtFirstColon | src/lib/openai.ts:67-68 | `time` is the trimmed text before the first ":" of the stripped line. `text` is everything after it, later colons kept, trimmed. With no ":", `time` is the whole trimmed entry and `text` is empty. |
| OpenAi.ParseRender | src/lib/openai.ts:52-69 | Render an analysis as "- " lines in three blocks: parsing gives back exactly that analysis when its entries fit on their lines. |
| Anthropic.SummarizeText | src/lib/anthropic.ts:9-25 | Without a key it throws "Anthropic API key is not configured" and issues no request. With one, it sends exactly one request (model "claude-3-opus-20240229", 1024 tokens, the transcript). A rejection propagates; otherwise the result is the parse. |
| Anthropic.FindHeader | src/lib/anthropic.ts:26 | Finds the leftmost match of `\d+\.` at or after a position, or reports that none exists. |
| Anthropic.CutWhole | src/lib/anthropic.ts:26 | The reply is left uncut exactly when no digit in it is directly followed by a dot. |
| Anthropic.CutAtHeading | src/lib/anthropic.ts:26 | The reply is cut at its first run of digits followed by a dot. The piece before it is kept whole, and cutting resumes after the dot. |
| Anthropic.SectionsKeepBlankPieces | src/lib/anthropic.ts:26 | A piece is a section exactly when it is a non-empty piece of the cut. Whitespace-only pieces remain. |
| Anthropic.ParseReply | src/lib/anthropic.ts:26-48 | Fails exactly when fewer than three sections remain. The error names the first missing section index. |
| Anthropic.NoHeadingFails | src/lib/anthropic.ts:26-33 | A reply without a numbered heading has at most one section, so reading `sections[1]` throws. |
| Anthropic.EmptyTimelineFails | src/lib/anthropic.ts:26-37 | A "3." heading with nothing after it is filtered out, so the call throws instead of returning an empty timeline. |
| Anthropic.LineByLine | src/lib/anthropic.ts:29-40 | Sections are read line by line, in order. A line gives one entry when it is not blank, and none otherwise. |
| Anthropic.EntryCount | src/lib/anthropic.ts:29-40 | Each list has exactly as many entries as its section has non-blank lines. |
| Anthropic.ListEntryShape | src/lib/anthropic.ts:29-36 | An entry is the trimmed line with one leading "-" or "*" and all whitespace after it removed. A line without a bullet is only trimmed. |
| Anthropic.StripBulletSuffix | src/lib/anthropic.ts:44 | Stripping the bullet keeps a suffix of the untrimmed line. A line starting with "-" or "*" loses exactly that character and the whole whitespace run after it; any other line loses nothing. |
| Anthropic.TimeTokenShape | src/lib/anthropic.ts:41-42 | There is no token exactly when the line has no digit or ":". Otherwise the token is the first maximal run of digits and colons. |
| Anthropic.TimelineWithoutToken | src/lib/anthropic.ts:41-46 | A line without a token gets the time "0:00", and its text is the bullet-stripped line, trimmed. |
| Anthropic.TimelineWithToken | src/lib/anthropic.ts:41-46 | With a token, the time is the token. The text is the line with its bullet and the token cut out where `match` found it, then trimmed. |
| Anthropic.ParseRender | src/lib/anthropic.ts:26-48 | Render an analysis under headings "1.", "2." and "3.": parsing gives it back when its entries fit, that is, one trimmed line with no digit before a dot. |
| AssemblyAi.TranscribeAudio | src/lib/assemblyai.ts:7-34 | Without a key it throws "AssemblyAI API key is not configured" and makes no call. It makes upload, create (uploaded URL, "en") and polls of the created id, in that order. A failed call throws its error; the outcome is the poll rule's. |
| AssemblyAi.TextOrEmpty | src/lib/assemblyai.ts:34 | The returned text is empty exactly when the transcript text is absent or empty. Otherwise it is that text. |
| AssemblyAi.Settle | src/lib/assemblyai.ts:24-34 | A terminal poll returns exactly when it is "completed", with the text or "". An "error" poll throws "Transcription failed", and a rejected poll propagates. |
| AssemblyAi.PollsMade | src/lib/assemblyai.ts:24-32 | The loop never makes more polls than there are responses. |
| AssemblyAi.StopsAtFirstTerminal | src/lib/assemblyai.ts:24-32 | The loop stops at the first terminal poll, after that many polls, and never reads a later response. |
| AssemblyAi.NoTerminalKeepsPolling | src/lib/assemblyai.ts:24-32 | Without a terminal status the call never settles and polls once per response. |
| AssemblyAi.SettlesIffTerminal | src/lib/assemblyai.ts:24-32 | The call settles exactly when some poll is terminal. |
| AudioRecorder.AudioRecorder.constructor | src/lib/audioRecorder.ts:4-8 | A new recorder has all five fields null. |
| AudioRecorder.AudioRecorder.StopRecording | src/lib/audioRecorder.ts:59-76 | With no recorder or stream it throws "No recording in progress" and changes nothing; any failure changes nothing. On success all five fields are null and the blob is returned. |
| AudioRecorder.StopResult | src/lib/audioRecorder.ts:59-67 | How a stop ends: idle throws, a failed stop or blob propagates, a failed context close propagates, and otherwise the blob is returned. |
| AudioRecorder.AudioRecorder.StartRecording | src/lib/audioRecorder.ts:10-46 | An open session is stopped first, and a failure there aborts with nothing changed. On success it holds a new stream and recorder (the fixed options), a context on that stream, an analyser with FFT size 128 and a zeroed buffer of its bin count. It returns 50 levels of 0.5. |
| AudioRecorder.Placeholder | src/lib/audioRecorder.ts:41 | The placeholder is exactly 50 entries of 0.5. |
| AudioRecorder.Overwrite | src/lib/audioRecorder.ts:51 | The frame is written over the buffer's first bins. The length and the remaining bins are kept. |
| AudioRecorder.AudioRecorder.GetAudioData | src/lib/audioRecorder.ts:48-57 | Without an analyser or buffer it returns the placeholder. Otherwise the frame is written into the buffer, which is then scaled. In every reachable state exactly 50 levels are returned. |
| AudioRecorder.LevelsSpec | src/lib/audioRecorder.ts:52-53 | One level per byte, in order, each `b / 255`. |
| AudioRecorder.NormalizeSpec | src/lib/audioRecorder.ts:52-54 | The meter gives min(n, 50) levels, the k-th being `b[k] / 255`, each within [0, 1]. |
| Home.HomePage.constructor | src/components/home.tsx:18-35 | The page starts not recording, not processing, at 0%, showing the initial recording, which defaults to an empty one. |
| Home.HomePage.Issue | src/components/home.tsx:26-35 | Each setter changes its own piece of state and logs the update. |
| Home.HomePage.HandleRecordingStart | src/components/home.tsx:31-33 | Only `isRecording` changes, to true. |
| Home.HomePage.HandleRecordingStop | src/components/home.tsx:37-88 | The new state is the old one after the handler's update list for the step outcomes. The calls are stop, transcribe (with the blob) and summarise (with the transcript), as far as the steps get. |
| Home.HomePage.ShowOverlay | src/components/home.tsx:38-40 | Recording off, processing on, progress 0, in that order. |
| Home.HomePage.ProcessStop | src/components/home.tsx:42-87 | The `try` block issues the updates for the outcomes, and its `catch` issues the reset. |
| Home.HomePage.AfterStopRecording | src/components/home.tsx:47-61 | After the 20% step, an empty or missing blob or a failed transcription resets. Otherwise only the transcription is replaced, then 60%. |
| Home.HomePage.AfterTranscriptArrived | src/components/home.tsx:65-81 | A failed summary resets. Otherwise 90%, the full recording, 100%, and one reset timer scheduled. |
| Home.HomePage.CatchReset | src/components/home.tsx:82-85 | Processing off, then progress 0. |
| Home.HomePage.FireResetTimer | src/components/home.tsx:78-81 | The scheduled timer fires, hiding the overlay at 0%. |
| Home.StopCalls | src/components/home.tsx:44-65 | The handler always stops the recorder first. It transcribes exactly when that yields a present, non-empty blob, and passes that blob. It summarises exactly when transcription also succeeds, and passes the transcript. |
| Home.StopRun | src/components/home.tsx:38-40 | Entering the handler leaves recording, starts processing and sets progress 0 before the steps run. |
| Home.ResetRun | src/components/home.tsx:82-85 | The catch block hides the overlay at 0% and touches nothing else. |
| Home.FireRun | src/components/home.tsx:78-81 | The timer callback hides the overlay at 0% and touches nothing else. |
| Home.AfterEntryRun | src/components/home.tsx:44-45 | A failed stop goes straight to the reset. Otherwise progress reaches 20% before the blob is checked. |
| Home.AfterStopRun | src/components/home.tsx:47-61 | On a missing or empty blob or a failed transcription the data is untouched. Otherwise only the transcription changes, and progress reaches 60%. |
| Home.AfterTranscriptRun | src/components/home.tsx:65-81 | A failed summary resets with the transcription kept. A success sets 90%, then the full recording and 100%, with one more pending reset. |
| Home.SuccessState | src/components/home.tsx:37-81 | When every step succeeds, progress takes 0, 20, 60, 90, 100 in order. The recording shown is exactly the transcript with the analysis's summary, key points and timeline. When the timer fires, the overlay is hidden at 0%. |
| Home.FailureState | src/components/home.tsx:37-87 | Every failure ends not recording, not processing, at 0%, with no timer scheduled; progress walks a prefix of the checkpoints and drops to 0. The recording is unchanged if no transcript arrived; afterwards only its transcription is replaced. |

## Left out

- The vendor SDKs (`audio.transcriptions.create`, `chat.completions.create`, `messages.create`, AssemblyAI `files.upload`, `transcripts.create` and `transcripts.get`) are network calls. Each is a parameter holding its outcome.
- The browser and library media calls are foreign code. `getUserMedia`, `recorder.startRecording`, `stopRecording`, `getBlob`, `audioContext.close` and `getByteFrequencyData` are parameters holding what they would answer.
- AudioRecorder.AudioRecorder.StartRecording: the constructions `new RecordRTCPromisesHandler(...)`, `new AudioContext()`, `createMediaStreamSource` and `createAnalyser` are assumed to succeed. The states a throw from them would leave behind are not modelled: a stream with no recorder, which makes the next `stopRecording` throw and the next `startRecording` overwrite the live stream, or an audio context with no analyser.
- Stopping the stream's tracks in `stopRecording` has no state in the model.
- `response.choices[0].message.content` (OpenAI) and `response.content[0].text` (Anthropic) are the parameters. Indexing an empty `choices` or `content` array is not modelled.
- The Whisper request options, the `File` wrapper around the blob, the GPT-4 prompt and the prompt wording are not modelled.
- OpenAi.TranscribeAudio: the response is modelled by its `text` field. What the SDK returns for `response_format: "text"` is SDK behaviour outside this model.
- `src/components/home.tsx` imports `transcribeAudio` from the Anthropic client, which exports no such function. The page's transcription step is therefore an abstract outcome, bound to neither client.
- The page's summarising step is an abstract outcome too.
- Timers and scheduling: the 500 ms reset timer is a pending reset that fires later, and the 1 s wait between polls has no counterpart. No durations and no event-loop interleaving are modelled. That includes a second stop arriving while one is still in flight.
- AssemblyAi.TranscribeAudio: the loop has no bound, so the model reads a finite sequence of poll responses. `Polling` is the outcome when they run out without a terminal status.
- Console logging, `isSidebarOpen` and the presentation components are not modelled.
- The module-level singletons (`export const audioRecorder = new AudioRecorder()` and the SDK clients) are not modelled.
- OpenAi.BulletEntry: strings are sequences of Unicode scalar values, while JavaScript indexes UTF-16 code units. `substring(2)` therefore differs from the model when the character right after "-" lies outside the Basic Multilingual Plane: JavaScript keeps a lone low surrogate, the model drops the whole character. The same holds for every index and length in the parsers.
- Regular expressions are written as the scans they denote. `\s` is the fixed set of JavaScript whitespace characters; there is no Unicode normalisation.
- Levels are exact `real` quotients, not IEEE doubles.
