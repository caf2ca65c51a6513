# Stewie voice terminal: the voice-interaction state machine in Dafny

This project models the voice side of the `Terminal` page component of the
Stewie AI terminal (`app/page.tsx`). The component listens for its name
("hey stewie"), switches into voice mode, and sends each spoken question to
the question-answering route. It speaks the answer with premium audio or the
browser's own voice, re-arms recognition, and goes back to sleep on "quit" or
"exit".

The model is split over five modules:

- `Phrases` (`phrases.dfy`) holds the pure matching logic:
  - the two word lists;
  - JavaScript's `includes` as `Contains`;
  - `words.some(...)` as `MatchesAny`;
  - `trim` and ASCII `toLowerCase`, combined into `Normalize`, the clean-up applied to every transcript.
- `Voices` (`voices.dfy`) is the choice of the browser voice, `voices.find(...)` over the preferred names.
- `Personality` (`personality.dfy`) is the personality ring and its modular index.
- `TerminalLines` (`lines.dfy`) holds:
  - the line list: text plus kind, as `addLine` is called;
  - the greeting lines;
  - the removal of the trailing "Thinking" placeholder when a reply arrives.
- `VoiceTerminal` (`terminal.dfy`) is the component itself, a class `Terminal`.
  - Its fields are the state hooks and refs: the three flags, the text box, the personality and its ring index, and the line list.
  - `pendingRestarts` lists the recognition restarts scheduled with `setTimeout` and not yet fired, by delay.
  - `commands` logs every call the component makes to the recognizer, the synthesizer, the audio element or the backend routes.
  - Each handler is a method whose contract states the new flags, lines, restarts and commands.
  - The asynchronous halves of `askQuestion` and `cyclePersonality` are separate methods: the reply, the TTS reply and the playback callbacks. They take the outcome of the request (or of the playback) as a parameter.
  - `Valid()` keeps the personality index on the ring. It also states that a browser without a recognizer never enters a listening mode, never schedules a restart and never talks to a recognizer, and that one without a synthesizer never talks to a synthesizer.

`Scenarios` (`scenarios.dfy`) chains the handlers' contracts into runs of the
terminal:

- waking by name;
- going to sleep on a sleep word;
- a spoken question asked, then answered and spoken back;
- the mount effect re-running after voice mode is entered;
- the stop button pressed during premium audio;
- a browser without speech synthesis.

Each run starts from any terminal in the state it needs. The concrete
utterances the user says are handled by small lemmas.

Behaviour of the code that the model keeps:

- Any transcript that merely contains a phrase matches. "please exit the pod" is a sleep command (`Phrases.SleepWordInsideQuestion`).
- Toggling voice mode off clears both listening modes. It does not go back to wake-word listening.
- The sleep-word check runs whenever wake-word listening is off, whatever `isVoiceMode` is.
- A wake word starts recognition at once, through `startVoiceMode`. No restart is scheduled.
- A scheduled restart starts recognition whatever the flags are when it fires (`FireRestart`).
- When the browser has speech synthesis, `askQuestion` calls `stopSpeaking`, which in voice mode schedules a 300 ms restart, just before `askQuestion` stops recognition.
- When the request or its JSON fails, the "Thinking" placeholder stays on screen: the catch branch does not remove it.
- `audio.onerror` falls back to the browser's voice without clearing `isSpeaking`.
- In a browser without speech synthesis, an answer that gets no premium audio leaves `isSpeaking` set. Neither the stop button nor recognition's end or error clears it (`Scenarios.SilentBrowserStaysSpeaking`). Premium audio ending, or a later question whose reply is an error status, or whose request or JSON fails, still clears it. A reply that never arrives leaves it set.
- The stop button does not silence premium audio. `stopSpeaking` cancels the browser's voice and rewinds the `<audio>` elements in the document, but the premium audio is created apart from the document. It plays on, and its end later clears `isSpeaking` and, in voice mode, schedules another restart (`Scenarios.StopLeavesPremiumAudioPlaying`).
- The mount effect lists the three flags as dependencies, so it runs again when voice mode is entered. That re-run turns wake-word listening back on beside voice mode, so the next spoken question goes down the wake-word branch and is never asked (`Scenarios.EffectRerunAfterVoiceMode`).

Several of these depart from what the component evidently aims at:
restarts that re-check the state when they fire, a network failure that
removes the placeholder, and listening modes that never hold together. The
model follows the code.

## Model

| member | source | states |
|---|---|---|
| Phrases.ContainsIffOccurs | app/page.tsx:50 | `Contains(s, sub)` (`s.includes(sub)`) holds exactly when `sub` occurs at some index of `s`; the empty string occurs everywhere |
| Phrases.MatchesAnyIffSome | app/page.tsx:50 | `words.some(w => t.includes(w))` holds exactly when some word of the list is contained in the transcript |
| Phrases.ContainsInContext | app/page.tsx:50 | an occurrence survives adding text before and after the string |
| Phrases.MatchesAnyInContext | app/page.tsx:50 | a phrase that matches keeps matching when the user says more around it |
| Phrases.ContainsTransitive | app/page.tsx:50 | text containing `w` contains every part of `w` |
| Phrases.LeadingTrimmed | app/page.tsx:45 | the count of leading characters `trim` removes: all of them trimmable, and the next one not |
| Phrases.TrailingStart | app/page.tsx:45 | where the trailing run `trim` removes begins: everything from there on trimmable, and the character before it not |
| Phrases.Trim | app/page.tsx:45 | `trim` never lengthens the string |
| Phrases.TrimIsSlice | app/page.tsx:45 | `trim` returns a slice of its input, everything cut off on either side is JavaScript white space or a line terminator, and the result neither starts nor ends with one |
| Phrases.ToLower | app/page.tsx:45 | `toLowerCase` keeps the length |
| Phrases.ToLowerPointwise | app/page.tsx:45 | `toLowerCase` maps each character on its own and leaves no upper-case ASCII letter |
| Phrases.TrimOfTrimmed | app/page.tsx:45 | a string that neither starts nor ends with a trimmable character is its own trim |
| Phrases.NormalizeOfClean | app/page.tsx:45 | a trimmed utterance without upper-case letters reaches the matcher unchanged |
| Phrases.NormalizeIdempotent | app/page.tsx:45 | cleaning a transcript twice is cleaning it once |
| Phrases.NameWakes | app/page.tsx:29-50 | any utterance with "stewie" in it matches a wake word |
| Phrases.QuitSleeps | app/page.tsx:30-65 | "quit" matches a sleep word |
| Phrases.SleepWordInsideQuestion | app/page.tsx:30-65 | "please exit the pod" matches a sleep word, because matching is by containment |
| Phrases.WakesExactlyOnName | app/page.tsx:29-50 | the "hey ..." wake words are redundant: a transcript wakes the terminal exactly when it contains "stewie" or "stewart" |
| Phrases.GreetingDoesNotWake | app/page.tsx:29-50 | "good morning" matches no wake word |
| Voices.FindVoice | app/page.tsx:192-199 | the voice chosen is absent exactly when no voice has a preferred name; otherwise it is the first such voice |
| Voices.FindVoiceIgnoresLaterVoices | app/page.tsx:192-197 | voices added after a preferred one never change the choice |
| Personality.NextIndex | app/page.tsx:376 | one press moves the index one step along the ring of four modes, wrapping from the last to the first |
| Personality.Advance | app/page.tsx:376 | repeated presses stay on the ring |
| Personality.AdvanceIsRotation | app/page.tsx:376 | `p` presses from index `i` land on `(i + p) % 4` |
| Personality.FullCycle | app/page.tsx:375-377 | four presses return to the starting mode, and every mode is shown within one round |
| TerminalLines.DropThinkingPlaceholder | app/page.tsx:246-250 | a reply removes at most one line, always the last, and exactly when the last line's text contains "Thinking"; every earlier line stays |
| TerminalLines.PlaceholderRemoved | app/page.tsx:235-250 | the placeholder a question shows is exactly what the reply removes |
| TerminalLines.NoCapitalTNoThinking | app/page.tsx:248 | text without a capital T is never taken for the placeholder |
| TerminalLines.SpokenPromptKept | app/page.tsx:45-76 | a spoken question is shown lower-cased, so it is never taken for the placeholder |
| VoiceTerminal.Terminal.constructor | app/page.tsx:9-26 | the first render: no mode, not speaking, empty box, personality "auto", the greeting lines |
| VoiceTerminal.Terminal.AddLine | app/page.tsx:111-131 | `addLine` appends one line of the given kind |
| VoiceTerminal.Terminal.ScheduleRestart | app/page.tsx:58-60 | a `setTimeout` restart adds one pending restart with its delay |
| VoiceTerminal.Terminal.StartRecognitionNow | app/page.tsx:351 | `recognitionRef.current?.start()` logs a start exactly when a recognizer exists |
| VoiceTerminal.Terminal.StopRecognitionNow | app/page.tsx:361 | `recognitionRef.current?.stop()` logs a stop exactly when a recognizer exists |
| VoiceTerminal.Terminal.RunEffect | app/page.tsx:32-109 | the mount effect starts status polling every 60000 ms; with a recognizer it announces and enters wake-word listening and schedules a start after 1000 ms; without one it changes nothing else |
| VoiceTerminal.Terminal.FireRestart | app/page.tsx:58-60 | a scheduled restart fires: it leaves the pending list and starts recognition without re-checking any flag |
| VoiceTerminal.Terminal.StartVoiceMode | app/page.tsx:344-355 | voice mode on, wake-word listening off, three lines announced, recognition started at once |
| VoiceTerminal.Terminal.StopVoiceMode | app/page.tsx:357-363 | both listening modes off, recognition stopped |
| VoiceTerminal.Terminal.StartWakeWordListening | app/page.tsx:365-373 | wake-word listening on, voice mode off, recognition started at once |
| VoiceTerminal.Terminal.ToggleVoiceMode | app/page.tsx:331-342 | without a recognizer only an error line; while active both modes go off (not back to wake-word listening); otherwise voice mode starts |
| VoiceTerminal.Terminal.StopSpeaking | app/page.tsx:166-182 | with a synthesizer: the browser's voice cancelled, the document's `<audio>` elements rewound (the premium audio is not one of them), not speaking, and a 300 ms restart exactly in voice mode; without one nothing changes |
| VoiceTerminal.Terminal.AskQuestion | app/page.tsx:226-242 | an empty question changes nothing; otherwise speech is stopped, recognition stopped in voice mode, the placeholder shown and the question sent |
| VoiceTerminal.Terminal.OnResult | app/page.tsx:44-76 | the four outcomes of a transcript: a wake word while asleep starts voice mode and asks nothing; anything else while asleep only schedules a 300 ms restart; a sleep word otherwise returns to wake-word listening and asks nothing; anything else is shown once as a prompt and asked verbatim |
| VoiceTerminal.Terminal.HearWhileAsleep | app/page.tsx:49-62 | the wake-word branch of `onresult` |
| VoiceTerminal.Terminal.HearWhileAwake | app/page.tsx:64-75 | the sleep-word and question branch of `onresult` |
| VoiceTerminal.Terminal.OnError | app/page.tsx:78-87 | a 500 ms restart is scheduled exactly when a listening mode is on and nothing is spoken; nothing else changes |
| VoiceTerminal.Terminal.OnEnd | app/page.tsx:89-95 | a 300 ms restart is scheduled exactly when a listening mode is on and nothing is spoken; nothing else changes |
| VoiceTerminal.Terminal.OnAnswer | app/page.tsx:237-319 | the three replies to a question: an answer replaces the placeholder, updates the personality when one is given, sets speaking, requests speech and refreshes the status; an error status replaces the placeholder with the error, clears speaking and re-arms after 1000 ms in voice mode; a failed request keeps the placeholder, shows the connection error, clears speaking and re-arms after 1000 ms in voice mode |
| VoiceTerminal.Terminal.ConnectionFailed | app/page.tsx:310-319 | the catch branch of `askQuestion` |
| VoiceTerminal.Terminal.ShowAnswer | app/page.tsx:246-299 | the success branch of `askQuestion` |
| VoiceTerminal.Terminal.ShowRejection | app/page.tsx:246-309 | the error-status branch of `askQuestion` |
| VoiceTerminal.Terminal.UseBrowserTTS | app/page.tsx:184-224 | with a synthesizer, speech is cancelled and the text spoken in the first preferred voice, or the browser's default voice when none is preferred; without one nothing happens |
| VoiceTerminal.Terminal.OnSpeechReply | app/page.tsx:270-297 | premium audio with data is played; any other provider, missing audio or a failed request falls back to the browser's voice |
| VoiceTerminal.Terminal.EndSpeaking | app/page.tsx:206-213 | not speaking, and a 1000 ms restart exactly in voice mode |
| VoiceTerminal.Terminal.OnUtteranceStart | app/page.tsx:205 | speaking |
| VoiceTerminal.Terminal.OnUtteranceEnd | app/page.tsx:206-213 | not speaking, and a 1000 ms restart exactly in voice mode |
| VoiceTerminal.Terminal.OnUtteranceError | app/page.tsx:214-221 | not speaking, and a 1000 ms restart exactly in voice mode |
| VoiceTerminal.Terminal.OnAudioEnded | app/page.tsx:275-282 | not speaking, and a 1000 ms restart exactly in voice mode |
| VoiceTerminal.Terminal.OnAudioError | app/page.tsx:284-287 | the browser's voice takes over; the speaking flag and the restarts are left as they are |
| VoiceTerminal.Terminal.EditInput | app/page.tsx:475 | the box holds the new text |
| VoiceTerminal.Terminal.HandleSubmit | app/page.tsx:322-329 | a blank box changes nothing; otherwise the text is shown and asked exactly as typed, and the box is cleared |
| VoiceTerminal.Terminal.CyclePersonality | app/page.tsx:375-384 | the index moves one step along the ring and the mode at the new index is requested |
| VoiceTerminal.Terminal.OnPersonalityReply | app/page.tsx:386-394 | on success the mode is shown and announced; on failure or an unsuccessful reply nothing changes |
| Scenarios.WakeByName | app/page.tsx:49-62 | asleep, a phrase without a wake word only schedules a 300 ms restart; a wake word then starts voice mode with recognition started at once |
| Scenarios.GreetingHeard | app/page.tsx:45-50 | "good morning" does not wake the terminal |
| Scenarios.NameHeard | app/page.tsx:45-50 | "hey stewie" wakes the terminal |
| Scenarios.SleepOnCommand | app/page.tsx:65-72 | in voice mode a sleep word returns to wake-word listening: recognition stopped and started, nothing asked |
| Scenarios.QuitHeard | app/page.tsx:45-65 | "quit" puts the terminal to sleep |
| Scenarios.SpokenQuestionAsked | app/page.tsx:74-75 | a spoken question in voice mode is shown, speech silenced with a 300 ms restart, recognition stopped and the question sent |
| Scenarios.AnswerSpokenBack | app/page.tsx:246-297 | its answer replaces the placeholder, is spoken by the browser in the first preferred voice, or the browser's default voice when none is preferred, and listening is re-armed after 1000 ms |
| Scenarios.PodsQuestionClean | app/page.tsx:45 | "how are the pods" passes the clean-up unchanged |
| Scenarios.PodsQuestionHeard | app/page.tsx:30-65 | "how are the pods" contains no sleep word |
| Scenarios.EffectRerunAfterVoiceMode | app/page.tsx:98-109 | after voice mode is entered the re-run effect turns wake-word listening on beside it, so a spoken question without a wake word is neither shown nor asked and only schedules a 300 ms restart |
| Scenarios.StopLeavesPremiumAudioPlaying | app/page.tsx:166-182 | the stop button during premium audio cancels the browser's voice and rewinds the document's audio, but nothing stops the premium audio; its end clears speaking and schedules a second restart |
| Scenarios.SilentBrowserStaysSpeaking | app/page.tsx:166-185 | without a synthesizer an answer that gets no premium audio leaves the terminal speaking: neither the stop button nor recognition's end or error clears the flag |

## Left out

- The API routes (`app/api/*`), `app/layout.tsx` and the JSX render are not part of this model: they are network proxies and markup.
- `loadStatus` and `analyzeCluster` are fetch-and-display code. `loadStatus` appears only as the `RefreshStatus` and `PollStatus` commands, so the personality it reads back from the backend is not modelled.
- Real time is not modelled: timers are the list of pending restarts, and a restart fires only when `FireRestart` is called. Clearing the status interval (on unmount and before every re-run of the effect) is not modelled, so a re-run logs a second `PollStatus` where the page keeps one interval.
- The browser's recognizer, synthesizer and audio element are left out. Their calls are logged commands, and their events are methods called with the event's outcome. An "already started" exception from `start()` is swallowed in the source, so the model logs the call either way.
- `recognition.onerror`'s error code only decides what is logged to the console, so `OnError` takes no code.
- `RunEffect`: React runs the effect body again whenever a flag changes, and it re-registers the handlers with the flags of that render. The model exposes the body as one method and calls it only where a run says so. Every handler reads the current fields, so stale closures are not modelled.
- The text-box and voice paths can dispatch questions concurrently. Their interleaving is not modelled: each handler runs to completion.
- `addLine`'s check for a missing terminal body is not modelled: the terminal body is always present once mounted.
- `innerHTML` markup, scrolling and base64 decoding are not modelled. A prompt line's displayed text is its label followed by the words (`TextContent`).
- `ToLower`: lower-cases ASCII letters only, not the rest of Unicode.
- Rate, pitch and volume of the browser's voice are floating-point settings and are left out.
- `OnAnswer`: a reply whose `answer` or `error` field is missing shows the text "undefined" in the source. In the model the field's text is a parameter.
- `audio.play()` rejecting its promise is not modelled.
