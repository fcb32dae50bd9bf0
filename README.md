# Live session screen of the AI Gym Trainer app, modelled in Dafny

The live session screen streams camera frames to a remote pose-analysis
service over a WebSocket and shows the feedback that comes back: a feedback
sentence, a rep count and an exercise label. It narrates the feedback with
speech synthesis, debounced against the last narrated sentence: that
sentence is narrated again only after more than 4000 ms. This project models
that screen's logic: the inbound-message handler with its speech debounce, the session effect that
opens the socket and arms the frame interval and cleans both up, the send gate
on the socket's state, the speech-queue effect and the two toggles.

- `optional.dfy` — module `Optional`: the `Option` type, standing for an absent
  (`undefined`) or present field.
- `narration.dfy` — module `Narration`: the handler as a pure function
  `Handle` over the displayed values and the last-spoken pair. It also holds
  `Replay`, which runs the handler over a stream of messages, and the debounce
  lemmas over such streams.
- `lifecycle.dfy` — module `Lifecycle`: the whole screen as a value `Screen`
  and the effect `Step` of each event: buttons, unmounting, socket open and
  close, interval tick, capture failure, encoding done, message arrival and
  the speech effect. It also holds the invariant `Valid` and the trace lemmas
  about sending over `Run`.
- `live_camera.dfy` — module `LiveCamera`: class `LiveCameraScreen`. Its fields
  are the component's state, refs, socket handle and interval. Each handler
  method updates them in place and is proved to do exactly what
  `Lifecycle.Step` says of its event and to keep `Valid`. `OnMessage` is the
  `onmessage` body written statement by statement, proved equal to
  `Narration.Handle`.

What is proved, in the screen's terms:

- Speech is queued exactly when the message's `feedback` is non-empty, audio is
  on, and the text is new or more than 4000 ms have passed. The comparison is
  strict, so 4000 ms is not enough to repeat a text.
- The last-spoken pair changes exactly when speech is queued.
- `reps` is applied whenever present, including 0. `exercise` and `feedback`
  are applied only when non-empty.
- For any stream of messages, whatever the arrival times, two narrations in a
  row with the same text are more than 4000 ms apart. The debounce remembers
  only the last narrated text, so A, B, A arriving 1 ms apart narrate A twice,
  2 ms apart (`Narration.InterleavedTextRepeatsSoon`). With audio off
  nothing is narrated. Every narration is some message's non-empty feedback,
  heard with audio on.
- A frame is sent only when an encoding finishes while the current socket is
  Open. A capture starts only on an armed tick while the socket is Open.
- After the end button, no frame is sent until a new session starts. After
  unmounting, no frame is ever sent.
- One consequence of re-checking whichever socket is current: a capture that
  is still encoding when a session ends is sent on the next session's socket
  once that socket is Open (`Lifecycle.StaleCaptureReachesNextSession`).
- After unmounting, nothing more is narrated and the display no longer
  changes. Unmounting during a session stops the narrator.
- Messages are handled while the socket is Open or still Closing. So a message
  that arrives just after the end button is shown and narrated after the
  cleanup's `Speech.stop` (`Lifecycle.MessageWhileClosingIsNarrated`).

Behaviours the code does not have, though one might expect them:

- `JSON.parse` errors are not caught, so a malformed payload is not skipped.
  Messages are well-formed by their type.
- The app going to the background does not end the session. `AppState` only
  feeds the camera's `isActive`.
- A socket that fails to open does not stop the interval from being armed. The
  interval is armed together with the socket, and its ticks then do nothing.
- The message handler has no session check of its own. Any message the
  socket delivers is handled, including one that arrives after the end button.

## Model

| member | source | states |
|---|---|---|
| `Narration.Handle` | AI-Gym-Trainer/Screens/LiveCameraScreen.js:65-88 | speech is queued iff the message has non-empty feedback, audio is on, and the text differs from the last spoken one or more than 4000 ms passed; what is queued is that feedback and it becomes the last-spoken pair with `now`; otherwise the pair is unchanged; displayed feedback/exercise follow non-empty fields, reps any present field |
| `Narration.MutedNeverQueues` | AI-Gym-Trainer/Screens/LiveCameraScreen.js:77-81 | with audio off nothing is queued and the last-spoken pair is unchanged |
| `Narration.EmptyMessageChangesNothing` | AI-Gym-Trainer/Screens/LiveCameraScreen.js:67-86 | a message with no data, or with no counting field, leaves display and last-spoken pair unchanged and queues nothing |
| `Narration.FirstFeedbackIsSpoken` | AI-Gym-Trainer/Screens/LiveCameraScreen.js:34-35 | from the initial last-spoken pair (null, 0), the first non-empty feedback heard with audio on is queued |
| `Narration.DebounceIsStrict` | AI-Gym-Trainer/Screens/LiveCameraScreen.js:75 | the same text exactly 4000 ms after it was spoken is not queued; 4001 ms after, it is |
| `Narration.ZeroRepsApplied` | AI-Gym-Trainer/Screens/LiveCameraScreen.js:85-86 | a reps value of 0 is applied while an empty exercise label is not |
| `Narration.FullMessageScenario` | AI-Gym-Trainer/Screens/LiveCameraScreen.js:17-21 | from the initial display, a message with feedback "Lower your hips", reps 3 and exercise "Squat" shows all three and queues the feedback |
| `Narration.ReplayLastSpoken` | AI-Gym-Trainer/Screens/LiveCameraScreen.js:77-80 | after any stream, the last-spoken pair is the last narration, or unchanged if nothing was narrated |
| `Narration.SameTextSpacing` | AI-Gym-Trainer/Screens/LiveCameraScreen.js:73-80 | for any stream and any arrival times, consecutive narrations of the same text are more than 4000 ms apart, and so is a first narration of the text spoken before the stream |
| `Narration.MutedStreamIsSilent` | AI-Gym-Trainer/Screens/LiveCameraScreen.js:31 | a stream handled with audio off throughout narrates nothing and keeps the last-spoken pair |
| `Narration.UtterancesComeFromAudibleFeedback` | AI-Gym-Trainer/Screens/LiveCameraScreen.js:70-80 | every narration of a stream is the non-empty feedback of one of its messages, handled with audio on, stamped with that message's time |
| `Narration.InterleavedTextRepeatsSoon` | AI-Gym-Trainer/Screens/LiveCameraScreen.js:74-80 | the debounce compares only with the last narrated text: A, B, A one millisecond apart, audio on, narrate A twice, 2 ms apart |
| `Narration.RepeatWithinSecondSpokenOnce` | AI-Gym-Trainer/Screens/LiveCameraScreen.js:74-78 | the same feedback twice within one second, audio on, is narrated only the first time |
| `Lifecycle.ToggleFacing` | AI-Gym-Trainer/Screens/LiveCameraScreen.js:42-44 | toggling always changes the camera facing |
| `Lifecycle.ToggleFacingTwice` | AI-Gym-Trainer/Screens/LiveCameraScreen.js:43 | toggling twice restores the facing |
| `Lifecycle.CloseSocket` | AI-Gym-Trainer/Screens/LiveCameraScreen.js:56 | after a guarded close the socket is neither connecting nor open; a missing socket stays missing; a closing or closed one is unchanged |
| `Lifecycle.Cleanup` | AI-Gym-Trainer/Screens/LiveCameraScreen.js:114-118 | the cleanup leaves no interval armed, no live socket and the narrator stopped, and keeps the session flags and the frame count |
| `Lifecycle.Step` | AI-Gym-Trainer/Screens/LiveCameraScreen.js:54-119 | a frame is sent only by a finished encoding while the socket is Open; a capture starts only on an armed tick with a camera while Open; only starting a session arms the interval or makes a live socket; only `onopen` opens it; ending or unmounting an active session disarms and closes; the debounce state changes only on a message reaching a mounted screen over an Open or Closing socket with audio on |
| `Lifecycle.InitialValid` | AI-Gym-Trainer/Screens/LiveCameraScreen.js:17-35 | the initial screen satisfies the invariant and is quiescent (no interval, no socket) |
| `Lifecycle.StepPreservesValid` | AI-Gym-Trainer/Screens/LiveCameraScreen.js:54-119 | every event keeps the invariant: interval armed iff a mounted session is active, such a session has a socket, outside one the socket is not live, the speech slot holds only non-empty text |
| `Lifecycle.RunPreservesValid` | AI-Gym-Trainer/Screens/LiveCameraScreen.js:54-119 | any sequence of events keeps the invariant |
| `Lifecycle.CleanupPathsQuiesce` | AI-Gym-Trainer/Screens/LiveCameraScreen.js:113-118 | after the end button or unmounting, no interval is armed and no socket is live |
| `Lifecycle.EndWithoutSessionIsNoop` | AI-Gym-Trainer/Screens/LiveCameraScreen.js:55-57 | ending when no session is active, in particular when no socket exists, changes nothing |
| `Lifecycle.QuiescentSendsNothing` | AI-Gym-Trainer/Screens/LiveCameraScreen.js:92-111 | from a quiescent screen, any events without a new start send no frame, start no capture and stay quiescent |
| `Lifecycle.EndSessionStopsFrames` | AI-Gym-Trainer/Screens/LiveCameraScreen.js:105-107 | after the end button, not even an in-flight capture sends a frame until a session is started again |
| `Lifecycle.UnmountStopsFrames` | AI-Gym-Trainer/Screens/LiveCameraScreen.js:113-119 | after unmounting no frame is ever sent |
| `Lifecycle.StaleCaptureReachesNextSession` | AI-Gym-Trainer/Screens/LiveCameraScreen.js:103-107 | a capture begun in one session and finished after a restart is sent on the new session's open socket |
| `Lifecycle.NarratorFedOnlyBySpeechEffect` | AI-Gym-Trainer/Screens/LiveCameraScreen.js:46-51 | the narrator is given text only by a mounted screen's speech effect, one queued text at a time, or is emptied by the cleanup |
| `Lifecycle.UnmountedIsInert` | AI-Gym-Trainer/Screens/LiveCameraScreen.js:46-51 | once unmounted, no event gives the narrator text or changes the display, the debounce state or the speech slot |
| `Lifecycle.UnmountSilencesNarrator` | AI-Gym-Trainer/Screens/LiveCameraScreen.js:114-118 | after unmounting the narrator is given nothing more, and after unmounting during a session it stays empty |
| `Lifecycle.MessageWhileClosingIsNarrated` | AI-Gym-Trainer/Screens/LiveCameraScreen.js:65-81 | a message arriving on the closing socket after the end button is shown and then narrated after `Speech.stop` |
| `Lifecycle.MutedScreenNeverQueues` | AI-Gym-Trainer/Screens/LiveCameraScreen.js:31 | while the audio reference is off, arriving messages neither fill the speech slot nor touch the debounce state |
| `LiveCamera.LiveCameraScreen.constructor` | AI-Gym-Trainer/Screens/LiveCameraScreen.js:17-35 | the fields start as the initial screen: no session, audio on, front camera, feedback 'Align yourself in the frame.', reps 0, exercise 'None', last spoken null at 0 |
| `LiveCamera.LiveCameraScreen.Cleanup` | AI-Gym-Trainer/Screens/LiveCameraScreen.js:114-118 | the fields become `Lifecycle.Cleanup` of the old screen: interval cleared, socket closed, narrator stopped |
| `LiveCamera.LiveCameraScreen.StartSession` | AI-Gym-Trainer/Screens/LiveCameraScreen.js:60-63 | from an inactive mounted screen, the session becomes active with a connecting socket and an armed interval; otherwise nothing changes |
| `LiveCamera.LiveCameraScreen.EndSession` | AI-Gym-Trainer/Screens/LiveCameraScreen.js:54-58 | afterwards no interval is armed and no socket is live; when no session was active nothing changes |
| `LiveCamera.LiveCameraScreen.Unmount` | AI-Gym-Trainer/Screens/LiveCameraScreen.js:113-119 | afterwards the screen is unmounted with no interval and no live socket |
| `LiveCamera.LiveCameraScreen.ToggleAudio` | AI-Gym-Trainer/Screens/LiveCameraScreen.js:181 | the audio flag flips; nothing else changes |
| `LiveCamera.LiveCameraScreen.SyncAudioRef` | AI-Gym-Trainer/Screens/LiveCameraScreen.js:37-39 | on a mounted screen, the reference read by the handler becomes the audio flag |
| `LiveCamera.LiveCameraScreen.ToggleCameraFacing` | AI-Gym-Trainer/Screens/LiveCameraScreen.js:42-44 | the camera facing changes to the other one |
| `LiveCamera.LiveCameraScreen.SocketOpened` | AI-Gym-Trainer/Screens/LiveCameraScreen.js:61 | a connecting socket becomes Open; nothing else changes |
| `LiveCamera.LiveCameraScreen.SocketClosed` | AI-Gym-Trainer/Screens/LiveCameraScreen.js:62-63 | an existing socket becomes Closed; nothing else changes |
| `LiveCamera.LiveCameraScreen.Tick` | AI-Gym-Trainer/Screens/LiveCameraScreen.js:92-97 | a capture starts iff the interval is armed, the camera is ready and the socket is Open |
| `LiveCamera.LiveCameraScreen.CaptureFailed` | AI-Gym-Trainer/Screens/LiveCameraScreen.js:94-97 | a failed capture ends without sending |
| `LiveCamera.LiveCameraScreen.FinishEncoding` | AI-Gym-Trainer/Screens/LiveCameraScreen.js:103-109 | the frame is sent iff a capture was in flight and the current socket is Open at that moment; the frame count grows by exactly the frames sent |
| `LiveCamera.LiveCameraScreen.OnMessage` | AI-Gym-Trainer/Screens/LiveCameraScreen.js:65-88 | the handler's statements update feedback, reps, exercise, the last-spoken pair and the speech slot exactly as `Narration.Handle` says, and touch no other field |
| `LiveCamera.LiveCameraScreen.Receive` | AI-Gym-Trainer/Screens/LiveCameraScreen.js:65 | a message is handled, with the audio reference, only by a mounted screen whose socket is Open or Closing; what is queued is what `Narration.Handle` queues |
| `LiveCamera.LiveCameraScreen.SpeakQueued` | AI-Gym-Trainer/Screens/LiveCameraScreen.js:46-51 | on a mounted screen a queued text is handed to the narrator once and the slot is cleared; an unmounted screen narrates nothing |

## Left out

- `JSON.parse` (LiveCameraScreen.js:68): messages are already-parsed records. A
  `feedback` or `exercise` that is not a string, or a `reps` that is `null` or
  not an integer, cannot be written in the model. The source would apply a
  `null` reps because it only tests `!== undefined`.
- Photo capture and base64 encoding (`takePhoto`, `fetch`, `Blob`,
  `FileReader`, LiveCameraScreen.js:94-109): foreign library calls. They become
  the events `Tick`, `CaptureFailed` and `FinishEncoding`. The frame's content
  is not modelled, only the count of frames sent.
- `setInterval` timing and `FRAME_PROCESSOR_INTERVAL` (1500 ms): wall-clock
  scheduling. A tick is an event. Overlapping ticks are a count of captures in
  flight, with no ordering between them.
- React rendering and state batching: each effect (`SyncAudioRef`,
  `SpeakQueued`) is an event that may come at any time. A state setter takes
  effect at once. The speech queue is a single slot that a later message
  overwrites. Effects and state setters of an unmounted screen do nothing, so
  a message or effect reaching an unmounted screen changes nothing observable.
- `Speech.speak` and `Speech.stop`: a sequence of texts handed to the
  narrator, emptied by stop. The narrator finishing an utterance is not
  modelled.
- LiveCamera.LiveCameraScreen.Receive: only the current socket's messages
  are modelled. A socket from an earlier session that is still Closing when a
  new session starts could deliver messages of its own. Which states the
  platform's WebSocket delivers in is not known here, so the model takes the
  wider set: Open and Closing.
- WebSocket construction, the closing handshake's timing, `Alert` on error and
  console logging: platform APIs. Opening and closing are the events
  `SocketOpened` and `SocketClosed`.
- `Date.now()`: the parameter `now`.
- JSX, styles, camera permission and device hooks (LiveCameraScreen.js:27-28,
  :121-396): UI. Whether the camera ref is set is the `cameraReady` parameter
  of a tick. Which buttons are visible is not modelled; a button press
  while unmounted does nothing.
- PhotoAnalysisScreen.js is not part of this model: it is a camera capture and
  one multipart POST whose only logic is choosing the error message.
