# Live voice session of the document assistant

This project models, in Dafny, the live duplex audio session of the
document-assistant web app. The session appears twice in the app:

- `components/VoiceAI.tsx` is the voice page. It records, plays model audio
  back, handles barge-in, and shows the current turn's transcripts.
- `components/SmartChat.tsx` is the document chat. Its live mode streams and
  plays audio only. It also sends typed or preset questions about the loaded
  document.

Both pages use the same three rules. The model states each rule once, in
a shared module, and both pages call it. The small per-page capture
callback is written once per page, as in the source:

- **Outbound frames** (`Pcm`). Each microphone window of float samples becomes
  a 16-bit frame of the same length. Element i is ToInt16(sample · 32768), as
  defined in section 7.1.8 of ECMA-262 (2023 edition): truncate toward zero,
  reduce modulo 2^16, read as two's complement. So 1.0 wraps to −32768.
  Every frame is tagged `audio/pcm;rate=16000`.
- **Gapless playback** (`Playback`). A decoded fragment starts at
  max(cursor, output clock), and the cursor then moves to that fragment's end.
  The specification is a function of the fragments scheduled since the cursor
  was last reset (`Starts`, `Cursor`). Its lemmas prove the following:
  - no fragment starts before the clock;
  - consecutive fragments never overlap, and they are gapless when a fragment
    arrives early;
  - any later fragment starts after an earlier one ends;
  - the cursor is the end of the last fragment.
  The class `Player` holds the cursor (`nextStartTimeRef`) and the live
  source set (`sourcesRef`). Its methods are proved against that
  specification. Every source it creates has a number never issued before,
  so a late end event of a stopped source can never remove a newer one.
  A fragment the decoder rejects has already moved the cursor up to the
  clock, and nothing else happens to it. It enters the history as a
  fragment of duration 0. A model turn without a `parts` list throws
  before any audio is looked at and changes nothing. Either throw ends
  the message handler.
- **Reset**. A reset stops every live source, empties the set and puts the
  cursor back to 0. Barge-in on the voice page and stop in the document chat
  both do this.

Each page is a class whose fields are the page's state:

- `VoiceAI.VoiceSession` holds the flag, both transcripts and the error text.
- `SmartChat.ChatPanel` holds the flag, the message list, the input box and
  the document flag.

Each class also holds its own `Player`. Every callback of the source is a
method, and every method's contract states the whole new state. A
transcription object without a `text` field appends the string
"undefined", as JavaScript string concatenation does. Time is an
exact non-negative real. The output clock (`currentTime`) is a parameter of
each inbound message. A new source object is modelled by a fresh number.

Three behaviours of the code are kept as they are, although a session
manager would usually do otherwise:

- On the voice page, stop does not reset the cursor, does not stop or clear
  live sources, and does not detach the microphone. Start does not reset the
  cursor either. A new session gets a new output context whose clock starts
  near 0, so its first fragment waits until the old cursor value.
- Neither page refuses a second start. There is no "already active" or
  "permission denied" outcome: a failed start only records the thrown message
  (voice page) or clears the flag (document chat).
- Once wired, the capture pipeline is never detached. It goes on handing
  frames to the session after stop.

## Model

| member | source | states |
|---|---|---|
| `Pcm.Trunc` | components/VoiceAI.tsx:56 | the result is the integer part of the input, rounded toward zero, within 1 of it on the side of 0 |
| `Pcm.ToInt16` | components/VoiceAI.tsx:56 | the stored value is the unique 16-bit two's-complement value congruent to the truncated input modulo 2^16 |
| `Pcm.Sample` | components/VoiceAI.tsx:56 | the value stored for one float sample is the 16-bit value congruent to trunc(sample · 32768) modulo 2^16 |
| `Pcm.Capture` | components/VoiceAI.tsx:52-61 | the frame has the window's length, element i is ToInt16(window[i] · 32768) and lies in [−32768, 32767], and the tag is `audio/pcm;rate=16000` |
| `Pcm.ToInt16Fits` | components/VoiceAI.tsx:56 | ToInt16 leaves a value that already fits in 16 bits unchanged |
| `Pcm.SampleInRange` | components/VoiceAI.tsx:56 | a sample in [−1, 1) becomes trunc(sample · 32768) |
| `Pcm.FullScaleWraps` | components/VoiceAI.tsx:56 | a sample of exactly 1.0 becomes −32768 |
| `Pcm.OverdriveWraps` | components/VoiceAI.tsx:56 | a clipping sample in [1, 2) wraps to trunc(sample · 32768) − 65536, a negative value |
| `Pcm.UnderdriveWraps` | components/VoiceAI.tsx:56 | a clipping sample in (−2, −32769/32768] wraps to trunc(sample · 32768) + 65536, a positive value |
| `Playback.StartAt` | components/VoiceAI.tsx:83 | a fragment starts no earlier than the cursor and no earlier than the clock, and at one of the two |
| `Playback.Starts` | components/VoiceAI.tsx:83-89 | one start per fragment scheduled since the last reset |
| `Playback.StartOfPrefix` | components/VoiceAI.tsx:83-89 | the i-th start is the one the rule gave when the i-th fragment arrived, given the fragments before it |
| `Playback.ScheduleOne` | components/VoiceAI.tsx:83-89 | a new fragment starts at max(cursor, clock), the cursor moves to its end, and the cursor never decreases |
| `Playback.StartsNotBeforeClock` | components/VoiceAI.tsx:83-88 | no fragment starts before the output clock at its arrival |
| `Playback.FirstStartsAtClock` | components/VoiceAI.tsx:83-97 | after a reset to 0, the next fragment starts exactly at the current clock |
| `Playback.Consecutive` | components/VoiceAI.tsx:83-89 | start[i+1] = max(start[i] + duration[i], clock[i+1]), so start[i+1] ≥ start[i] + duration[i], with equality when the fragment arrives before the previous one ends |
| `Playback.NoOverlap` | components/VoiceAI.tsx:83-89 | for all i < j, fragment j starts no earlier than fragment i ends |
| `Playback.CursorIsLastEnd` | components/VoiceAI.tsx:83-89 | the cursor equals the start plus the duration of the last fragment scheduled since the reset |
| `Playback.BurstScenario` | components/VoiceAI.tsx:83-89 | 100 ms fragments scheduled at clock 0, 50, 100 and 250 ms start at 0, 100, 200 and 300 ms |
| `Playback.Player.constructor` | components/VoiceAI.tsx:15-16 | the cursor starts at 0 with no live sources |
| `Playback.Player.Schedule` | components/VoiceAI.tsx:83-90 | start = max(old cursor, clock), cursor = start + duration, the start is the specification's start for the extended history, and a new source joins the live set |
| `Playback.Player.AlignToClock` | components/VoiceAI.tsx:83-84 | a fragment the decoder rejects only moves the cursor to max(cursor, clock); no source is created and the live set is unchanged |
| `Playback.Player.Play` | components/VoiceAI.tsx:80-92 | a decoded fragment gets the next unused source number, starts at max(cursor, clock) and advances the cursor by its duration; a rejected one only moves the cursor to max(cursor, clock); a turn without parts and no audio change nothing; it reports a throw exactly for a rejected decode or a turn without parts |
| `Playback.Player.Ended` | components/VoiceAI.tsx:91 | exactly the given source leaves the live set (a no-op when absent); the cursor is unchanged |
| `Playback.Player.Reset` | components/VoiceAI.tsx:95-97 | every live source is reported stopped, the set becomes empty and the cursor 0 |
| `VoiceAI.VoiceSession.constructor` | components/VoiceAI.tsx:7-16 | not recording, empty transcripts, no error, no session, cursor 0, no live sources |
| `VoiceAI.VoiceSession.Toggle` | components/VoiceAI.tsx:18-24 | stops when recording (flag false); otherwise starts, and the flag is left to the open event |
| `VoiceAI.VoiceSession.Stop` | components/VoiceAI.tsx:26-31 | closes the session iff one was stored and clears the flag; live set, cursor, transcripts and error keep their values |
| `VoiceAI.VoiceSession.Start` | components/VoiceAI.tsx:33-121 | creates the output context, then stores the session on success or the thrown message on failure; a throw before the output context exists records the message and leaves the output context as it was; flag, cursor and live set unchanged |
| `VoiceAI.VoiceSession.OnOpen` | components/VoiceAI.tsx:46-67 | the flag becomes true and the capture pipeline is wired |
| `VoiceAI.VoiceSession.OnAudioProcess` | components/VoiceAI.tsx:51-62 | once wired, each window is sent as one frame of the same length with element i = ToInt16(window[i] · 32768) and the 16 kHz PCM tag; nothing is sent before |
| `VoiceAI.VoiceSession.UpdateTranscripts` | components/VoiceAI.tsx:69-78 | output text is appended to the end of the model transcript and input text to the end of the user transcript ("undefined" for a missing text); turn-complete then clears both |
| `VoiceAI.VoiceSession.OnMessage` | components/VoiceAI.tsx:68-99 | the transcript step, then audio: a decoded fragment starts at max(cursor, clock) on a source never issued before; interrupted then stops every live source including the new one, empties the set and resets the cursor to 0; the handler throws exactly on a turn without parts or a rejected fragment with an output context, and a throw skips the interrupted step, stopping nothing; a rejected fragment first moves the cursor to max(cursor, clock) |
| `VoiceAI.VoiceSession.OnEnded` | components/VoiceAI.tsx:91 | only the ended source leaves the live set; the cursor, the scheduling history and the count of issued source numbers are unchanged |
| `VoiceAI.VoiceSession.OnError` | components/VoiceAI.tsx:100-103 | the error text is set (non-null) and the flag cleared |
| `VoiceAI.VoiceSession.OnClose` | components/VoiceAI.tsx:104 | the flag is cleared and nothing else changes |
| `SmartChat.TrimStart` | components/SmartChat.tsx:81 | the result is a suffix of the input, what was removed is all white space, and the result does not start with white space |
| `SmartChat.TrimEnd` | components/SmartChat.tsx:81 | the result is a prefix of the input, what was removed is all white space, and the result does not end with white space |
| `SmartChat.Trim` | components/SmartChat.tsx:81 | the result is the slice of the input between a blank leading run and a blank trailing run, it neither starts nor ends with white space, and it is empty for an all-white-space input |
| `SmartChat.TrimBothEnds` | components/SmartChat.tsx:81 | trimming the end after trimming the start leaves a slice between two blank runs with no white space at either end |
| `SmartChat.TrimEmptyIffBlank` | components/SmartChat.tsx:81 | trimming yields the empty string exactly when every character is JavaScript white space |
| `SmartChat.TrimsToEmpty` | components/SmartChat.tsx:81 | the guard `!text.trim()` holds exactly when every character is white space |
| `SmartChat.ChatPanel.constructor` | components/SmartChat.tsx:10-22 | no messages, empty input, no document, not live, cursor 0, no live sources |
| `SmartChat.ChatPanel.LoadDocument` | components/SmartChat.tsx:56-68 | a document is loaded and the chat restarts from the welcome message |
| `SmartChat.ChatPanel.RemoveDocument` | components/SmartChat.tsx:185 | the document and all messages are dropped |
| `SmartChat.ChatPanel.EditInput` | components/SmartChat.tsx:272 | the input box holds the typed text |
| `SmartChat.ChatPanel.SendText` | components/SmartChat.tsx:79-86 | the text is `presetText \|\| input`: the preset when it is given and non-empty (JavaScript truthiness, `PresetGiven`), else the input box (`Chosen`); it sends iff a document is loaded and the text is not all white space; a send appends the user message at the end, clears the input only without a preset, and starts loading |
| `SmartChat.ChatPanel.ToggleLive` | components/SmartChat.tsx:103 | stops when live (flag false, set empty, cursor 0, scheduling history cleared, output context kept); otherwise starts, and the flag is left to the open event, with the live set, cursor and history unchanged; no source number is consumed |
| `SmartChat.ChatPanel.StopLive` | components/SmartChat.tsx:105-111 | closes the session iff one was stored; flag false, every live source stopped, set empty, cursor 0 from any prior state; no source number is consumed; on an already stopped panel nothing changes |
| `SmartChat.ChatPanel.StartLive` | components/SmartChat.tsx:113-165 | without a document nothing changes; otherwise creates the output context and stores the session, or clears the flag when the start threw; a throw before the output context exists leaves it as it was |
| `SmartChat.ChatPanel.OnOpen` | components/SmartChat.tsx:123-137 | the flag becomes true and the capture pipeline is wired |
| `SmartChat.ChatPanel.OnAudioProcess` | components/SmartChat.tsx:127-133 | once wired, each window is sent as one frame of the same length with element i = ToInt16(window[i] · 32768) and the 16 kHz PCM tag; nothing is sent before |
| `SmartChat.ChatPanel.OnMessage` | components/SmartChat.tsx:138-152 | a decoded fragment starts at max(cursor, clock) on a source never issued before, the cursor moves to its end and the source joins the set; a rejected one only moves the cursor to max(cursor, clock); without audio, without an output context or on a turn without parts nothing changes; it throws exactly on a turn without parts or a rejected fragment with an output context; transcripts and interrupted are ignored |
| `SmartChat.ChatPanel.OnEnded` | components/SmartChat.tsx:150 | only the ended source leaves the live set; the cursor, the scheduling history and the count of issued source numbers are unchanged |
| `SmartChat.ChatPanel.OnError` | components/SmartChat.tsx:153 | the flag is cleared |
| `SmartChat.ChatPanel.OnClose` | components/SmartChat.tsx:154 | the flag is cleared |

## Left out

- The live connection, `sendRealtimeInput`, `session.close()`, `getUserMedia`, the audio contexts and the script processor wiring are network and device calls. They are events (method calls) and abstract actions here: a method returns whether it closes the session, which frame it sends, which source it starts and when, and which sources it stops.
- Pcm.Capture: the frame is the sequence of 16-bit values. Packing them into bytes and base64 (`encode` in utils/audioUtils) is not part of this model, and neither are base64 decoding and `decodeAudioData`. A decoded fragment appears only as its duration.
- The window size of 4096 samples is fixed by the script processor, not by the conversion. The model accepts a window of any length.
- Each message is handled atomically. The source awaits `decodeAudioData` between taking max(cursor, clock) and advancing the cursor, and the interleaving of overlapping message callbacks is not modelled. A rejected decode is modelled, but only as the end of its own handler.
- The open callback is modelled as a separate event after `Start`. In the source it runs while `startSession` awaits the connection, so a successful toggle ends with the flag already true. In the model, `Toggle` and `ToggleLive` leave the flag to a later `OnOpen` call.
- Floating-point rounding of `currentTime`, durations and samples is not modelled; they are exact reals. NaN and infinite samples, which ToInt16 maps to 0, cannot arise in this model.
- Repeated open events attach one more capture pipeline each. The model keeps a single "wired" flag, so it does not count duplicate frames.
- React state batching and re-rendering are not modelled. Each state update takes effect at once, in source order.
- The reply leg of sending text is not part of this model: it covers streaming the answer from `chatWithDocumentStream` in services/gemini.ts, appending the model or error message, and the final loading reset. The same goes for scrolling and the message timestamps and ids, which come from `Date`; an id is a parameter.
- Document upload (file reading, text extraction) is not part of this model. Only its effect on the panel's state is modelled (`LoadDocument`).
- The other pages, services/gemini.ts, App.tsx and types.ts are not part of this model: they are rendering, one-shot request wrappers and type declarations.
