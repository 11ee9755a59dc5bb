# Revolt voice chat: the client turn state machine and the relay, in Dafny

This project models the two pieces of logic in the Revolt voice bot: a
browser component that records a voice turn and shows the reply, and a Node
relay that forwards a turn to a generative model.

- **`VoiceChat`** (`voice_chat.dfy`) models the `VoiceChat` React component.
  It has six voice states, an append-only transcript of user and AI messages,
  and a buffer of recorded audio chunks. It also tracks whether microphone
  permission was granted, whether the socket and the recorder exist, and the
  audio payloads sent as `audio_message`.
  - Each handler is one case of `Step`, a function on a `Client` snapshot.
  - The class `VoiceChat.Component` holds the same state in fields. Each of its
    methods changes those fields in place and is proved to agree with `Step`.
  - `getButtonVariant`, `getStatusText` and the button's `disabled` test are
    total functions of the voice state.
- **`VoiceChatRuns`** (`voice_chat_runs.dfy`) applies sequences of events with
  `Run`. It proves an invariant of every state reachable from the first
  render. It also proves that the transcript only grows, and that AI replies
  enter it verbatim and in arrival order.
- **`Relay`** (`relay.dfy`) models the module-level `GEMINI_API_KEY`, `genAI`
  and `model` variables of `server.js`.
  - It covers `initializeAI`, start-up initialisation from the environment,
    `POST /set-api-key`, `GET /api-status`, and the `audio_message` and
    `text_message` socket handlers.
  - The class `Relay.Server` holds the variables as fields. Each handler
    returns the one event it emits, and the prompt handed to the model, if any.

Browser and SDK outcomes become parameters:
- What `startRecording` meets after its guard is the `StartOutcome` of a
  click. Either `getUserMedia` or `new MediaRecorder` throws before the chunk
  buffer is reset, or `recorder.start` throws after the reset, or recording
  begins.
- Whether `Blob.arrayBuffer()` resolves is the `bufferOk` of the recorder's
  stop.
- Whether `decodeAudioData` succeeds is `AudioDecoded(ok)`.
- Whether the client constructor or `getGenerativeModel` throws, or neither, is an `InitOutcome`.
- `generateContent(...).response.text()` is a function from the model and the
  prompt to generated text or a throw.

Speech-to-text is a parameter of `OnAudioMessage`. The source's placeholder is
`SimulateStt`, which always returns the same non-empty sentence. With it in
place, the "Could not process audio" branch cannot be taken.

Behaviour of the code worth noting, which the model follows:
- The component records audio with `MediaRecorder`. It has no speech
  recognition, no response timeout and no conversation mode.
- The relay emits `error`, not `ai_error`, and does not wait before calling
  the model.
- `text_message` forwards the message without checking that it is non-empty.
- A failed `initializeAI` never removes a model that is already installed. If
  `getGenerativeModel` throws, `genAI` is replaced but the previous `model`
  stays installed (`Relay.FailedReinitKeepsEarlierModel`). So after a rejected
  key, `/api-status` can still report `configured` while the model was built
  from an earlier key.
- No handler ever sets `connecting` (`VoiceChatRuns.Reachable`).
- In `error` the button is enabled and the status text says "Please try
  again", but a click does nothing (`VoiceChat.ClickActsOnlyInIdleOrListening`).

## Model

| member | source | states |
|---|---|---|
| VoiceChat.Start | src/components/VoiceChat.tsx:120-164 | without granted permission and a socket nothing changes; otherwise recording gives listening with an empty chunk buffer and a stored recorder; a throw from `recorder.start` gives error with the buffer already emptied and no new recorder; a refused microphone gives error with the buffer kept; the transcript and the sent audio are untouched |
| VoiceChat.Stop | src/components/VoiceChat.tsx:166-171 | listening with a recorder becomes processing and nothing else changes; in every other case the whole state is unchanged |
| VoiceChat.Send | src/components/VoiceChat.tsx:173-203 | without a socket nothing changes; when the buffer is read, one user message "Voice message" is appended and exactly that blob is sent; when reading fails, the state becomes error and nothing is appended or sent |
| VoiceChat.Reply | src/components/VoiceChat.tsx:38-55 | exactly one AI message with the reply text is appended after the unchanged earlier messages; the state ends in speaking with audio and in idle without; nothing else changes |
| VoiceChat.ButtonVariant | src/components/VoiceChat.tsx:213-221 | the variant is "voice" exactly in idle and connecting (the default case) and "destructive" exactly in error |
| VoiceChat.StatusText | src/components/VoiceChat.tsx:223-232 | idle falls to the default "Click to talk to Rev"; error reads "Error - Please try again" |
| VoiceChat.StatusTextDistinct | src/components/VoiceChat.tsx:223-232 | different states always show different status texts |
| VoiceChat.ClickActsOnlyInIdleOrListening | src/components/VoiceChat.tsx:205-211 | a click changes the state only from idle or listening; in error the button is enabled but the click changes nothing |
| VoiceChat.DisabledButtonIgnoresClicks | src/components/VoiceChat.tsx:290-294 | the button is enabled exactly in idle, listening and error; a click in the disabled states changes nothing |
| VoiceChat.ClickFromIdle | src/components/VoiceChat.tsx:205-207 | from idle, a click without permission or socket changes nothing; otherwise it ends in listening when recording begins and in error when either step throws |
| VoiceChat.SocketEventsSetState | src/components/VoiceChat.tsx:33-70 | socket `error` sets error and `connect`/`disconnect` set idle, changing nothing else |
| VoiceChat.PlaybackReturnsToIdle | src/components/VoiceChat.tsx:100-118 | the end of playback and a failed decode both set idle; a successful decode leaves the state speaking |
| VoiceChat.ChunkBuffer | src/components/VoiceChat.tsx:137-143 | the chunk buffer is emptied only by a recording start from idle, with permission and a socket, that gets past the microphone request; it grows only by one non-empty chunk |
| VoiceChat.StepAppendsAtMostOne | src/components/VoiceChat.tsx:180-186 | every event keeps the transcript or appends one message: the reply text for `ai_response`, or "Voice message" for a successfully read recording |
| VoiceChat.StateEntry | src/components/VoiceChat.tsx:33-211 | listening is entered only by a successful start from idle with permission and socket; processing only by a click in listening with a recorder; speaking only by a reply with audio; connecting never |
| VoiceChat.Initial | src/components/VoiceChat.tsx:18-24 | the first render has an empty transcript and chunk buffer, and cannot record until the permission and socket effects have run |
| VoiceChat.Concat | src/components/VoiceChat.tsx:146 | the Blob's bytes start with the first buffered chunk and end with the last |
| VoiceChat.VoiceAction | src/components/VoiceChat.tsx:205-211 | a click changes something only from idle or listening, and never touches the transcript or the sent audio |
| VoiceChat.ButtonDisabled | src/components/VoiceChat.tsx:294 | the button is enabled exactly in idle, listening and error |
| VoiceChat.Step | src/components/VoiceChat.tsx:33-211 | every handler keeps the earlier transcript as a prefix and adds at most one message; once the socket or the recorder exists, it stays |
| VoiceChat.Component.constructor | src/components/VoiceChat.tsx:18-24 | the component starts idle with an empty transcript and chunk buffer, unknown permission, and no socket or recorder |
| VoiceChat.Component.MountSocket | src/components/VoiceChat.tsx:28-77 | the mount effect only records that the socket exists |
| VoiceChat.Component.OnPermission | src/components/VoiceChat.tsx:80-98 | the permission request sets permission to granted or denied |
| VoiceChat.Component.OnConnect | src/components/VoiceChat.tsx:33-36 | the fields change as `Step` prescribes for `connect` |
| VoiceChat.Component.OnDisconnect | src/components/VoiceChat.tsx:67-70 | the fields change as `Step` prescribes for `disconnect` |
| VoiceChat.Component.OnError | src/components/VoiceChat.tsx:57-65 | the fields change as `Step` prescribes for a socket error |
| VoiceChat.Component.OnAiResponse | src/components/VoiceChat.tsx:38-55 | the in-place updates agree with `Reply` |
| VoiceChat.Component.OnAudioDecoded | src/components/VoiceChat.tsx:100-118 | a failed decode sets idle; a successful one leaves the fields unchanged |
| VoiceChat.Component.OnPlaybackEnded | src/components/VoiceChat.tsx:109-111 | the end of playback sets idle |
| VoiceChat.Component.StartRecording | src/components/VoiceChat.tsx:120-164 | the in-place updates agree with `Start` |
| VoiceChat.Component.StopRecording | src/components/VoiceChat.tsx:166-171 | the in-place updates agree with `Stop` |
| VoiceChat.Component.HandleVoiceAction | src/components/VoiceChat.tsx:205-211 | the in-place updates agree with `Step` for a click |
| VoiceChat.Component.OnDataAvailable | src/components/VoiceChat.tsx:139-143 | only a non-empty chunk is pushed onto the buffer |
| VoiceChat.Component.SendAudioToServer | src/components/VoiceChat.tsx:173-203 | the in-place updates agree with `Send` |
| VoiceChat.Component.OnRecorderStop | src/components/VoiceChat.tsx:145-149 | the blob sent is the buffered chunks concatenated in order |
| VoiceChatRuns.RunInv | src/components/VoiceChat.tsx:33-211 | from a state that satisfies the invariant, every sequence of events keeps it: non-empty chunks, user messages are "Voice message", one sent payload per user message, never connecting, and listening or processing only with a recorder and a socket |
| VoiceChatRuns.Reachable | src/components/VoiceChat.tsx:17-24 | from the first render, no sequence of events reaches connecting or buffers an empty chunk, and user messages and sent payloads stay in one-to-one correspondence |
| VoiceChatRuns.TranscriptAppendOnly | src/components/VoiceChat.tsx:46 | after any events, the earlier transcript is a prefix of the new one |
| VoiceChatRuns.RepliesRecordedVerbatim | src/components/VoiceChat.tsx:38-46 | after any events, the AI messages added are exactly the `ai_response` texts, verbatim and in order |
| Relay.Init | server.js:80-102 | the result is true exactly when both constructions succeed; success installs a model bound to the key; failure keeps the earlier model; a failing client constructor changes nothing; the stored key is never touched |
| Relay.Startup | server.js:229-232 | the stored key is the environment's; a model exists exactly when that key is truthy and initialisation succeeds, and it is built from that key; a client exists exactly when the key is truthy and the client constructor does not throw, and it is built from that key |
| Relay.ApiStatus | server.js:126-133 | a report of configured always carries "API key configured" and implies a model exists; the server field is "running" |
| Relay.SetKey | server.js:108-123 | a missing or empty key gives 400 "API key is required" with no change; a truthy key is stored, then initialised, answering 200 `{success: true}` on success and 500 on failure |
| Relay.SimulateStt | server.js:212-227 | the placeholder transcription is never missing or empty |
| Relay.SimulateSttIgnoresAudio | server.js:212-227 | the placeholder returns the same sentence for every input |
| Relay.RejectedKeyChangesNothing | server.js:111-113 | a missing or empty key changes nothing and answers 400 "API key is required" |
| Relay.KeyStoredEvenIfInitFails | server.js:115-122 | a non-empty key stays stored whatever initialisation does; the status is 200 exactly when it succeeds; on failure the model is unchanged |
| Relay.AcceptedKeyIsConfigured | server.js:108-131 | after a 200 from `/set-api-key`, `/api-status` reports configured and the model is bound to that key |
| Relay.StatusReportsKeyAndModel | server.js:126-133 | configured exactly when the key is truthy and a model exists; the message is "API key configured" exactly when the key is truthy, whatever the model |
| Relay.FailedReinitKeepsEarlierModel | server.js:80-102 | when `getGenerativeModel` throws on a new key, the key and client change but the earlier model stays, so status still says configured |
| Relay.AdminRunFinalState | server.js:76-123 | after any `/set-api-key` requests, the model is the one built by the last successful request (or the earlier one), and the key is the last truthy key (or the earlier one) |
| Relay.ModelStaysInstalled | server.js:76-123 | once a model is installed, no sequence of `/set-api-key` requests uninstalls it |
| Relay.Server.constructor | server.js:229-232 | the fields at start-up agree with `Startup` |
| Relay.Server.InitializeAI | server.js:80-102 | the in-place updates and the result agree with `Init` |
| Relay.Server.SetApiKey | server.js:108-123 | the in-place updates and the response agree with `SetKey` |
| Relay.Server.OnAudioMessage | server.js:139-177 | no model: the "not initialized" error, with no generation; empty transcription: "Could not process audio", with no generation; otherwise the transcription is the prompt, and the emission is `ai_response` carrying the generated text verbatim and the transcription, or the generic failure error |
| Relay.Server.OnTextMessage | server.js:179-203 | no model: the "not initialized" error, with no generation; otherwise the message is the prompt, and the emission is `ai_response` with the generated text verbatim and no transcription, or the generic failure error |

## Left out

- Socket.io transport, CORS origin lists, Express wiring and `/health`. These are plumbing, and `/health` reports a wall-clock timestamp.
- The Gemini SDK. Its constructors and `generateContent` are oracles. The model name, the generation settings (temperature and top-p are floating point) and the system instruction text are opaque configuration.
- `getUserMedia`, `MediaRecorder`, `Blob`, `AudioContext` and track stopping. These are browser APIs; only their success or failure is modelled.
- Toast notifications and console logging. These are user-interface and diagnostic output.
- Message ids and timestamps. They come from `Date.now()` and can collide, so no uniqueness is claimed.
- The JSX rendering and the permission-denied card. These are user interface. Only the variant, the status text and the `disabled` test are modelled.
- The socket cleanup that closes the socket on unmount. This is transport.
- Interleaving of asynchronous callbacks and several sockets. Each handler is one atomic step. A click's `StartOutcome` stands for the later outcome of `getUserMedia` and `recorder.start`, so no event can fall between the click and that outcome.
- The `audio` field of `ai_response` is an `ArrayBuffer`; only whether it is present is modelled. The relay in this repository never sends one.
- Relay.SetKey: the body's `apiKey` is a string or absent. Other truthy JSON values (numbers, objects) that the source would also store are not modelled.
- Relay.Server.OnTextMessage: a missing `message` field is not modelled separately. It would reach the model as `undefined`, and the generation oracle's throw covers what follows.
- src/components/ApiKeySetup.tsx, src/pages/Index.tsx and start-servers.js are not part of this model. They are a form, page routing and process spawning.
