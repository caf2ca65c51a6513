/** The voice-interaction state machine of the `Terminal` page component
    (app/page.tsx). The component's state hooks and refs become fields of one
    object; its handlers become methods that update them. Timers become the
    list of restarts waiting to fire, and every call the component makes to
    the browser or the backend is appended, in order, to a command log. */
module VoiceTerminal {
  import opened Phrases
  import opened Voices
  import opened Personality
  import opened TerminalLines

  /** A call the component makes to the speech engines, the audio element or
      the backend. */
  datatype Command =
    | StartRecognition                    // recognition.start()
    | StopRecognition                     // recognition.stop()
    | CancelSpeech                        // speechSynthesis.cancel()
    | RewindPageAudio                     // pause and rewind the <audio> elements in the document
    | SpeakWithBrowser(text: string, voice: Option<Voice>)
    | PlayPremiumAudio(audio: string)     // play the TTS route's mp3 in an Audio outside the document
    | Ask(question: string)               // POST /api/ask
    | RequestSpeech(text: string)         // POST /api/tts
    | RefreshStatus                       // loadStatus()
    | PollStatus(periodMs: nat)           // setInterval(loadStatus, periodMs)
    | RequestPersonality(mode: string)    // POST /api/personality

  predicate IsRecognitionCommand(c: Command)
  {
    c.StartRecognition? || c.StopRecognition?
  }

  predicate IsSynthesisCommand(c: Command)
  {
    c.CancelSpeech? || c.RewindPageAudio? || c.SpeakWithBrowser?
  }

  /** How the question-answering route replied: an answer (with the
      personality that produced it, "" when absent), an error status with its
      message, or no usable reply at all (the request or its JSON failed). */
  datatype AskOutcome =
    | Answered(answer: string, personality: string)
    | Rejected(error: string)
    | NoConnection

  /** How the text-to-speech route replied: a provider name with its audio
      ("" when absent), or a failure of the request or its JSON. */
  datatype SpeechOutcome =
    | Synthesized(provider: string, audio: string)
    | SynthesisFailed

  /** How the personality route replied to a mode change. */
  datatype PersonalityOutcome =
    | Switched(success: bool, description: string)
    | SwitchFailed

  // Restart delays, in milliseconds.
  const KeepListeningDelay: nat := 300
  const ErrorRetryDelay: nat := 500
  const AfterSpeechDelay: nat := 1000
  const StartupDelay: nat := 1000
  const StatusPeriod: nat := 60000

  /** The provider whose reply carries ready-to-play audio. */
  const PremiumProvider: string := "elevenlabs"

  const WakeDetectedLine: Line := Line("👂 Wake word detected!", System)
  const VoiceModeLines: seq<Line> := [
    Line("🎤 Voice mode activated - listening continuously...", System),
    Line("Say \"quit\" or \"exit\" to sleep", System),
    Blank
  ]
  const SleepLine: Line := Line("💤 Going to sleep. Say \"Hey Stewie\" to wake me.", System)
  const ListeningLine: Line := Line("👂 Listening for \"Hey Stewie\" to wake...", System)
  const NotSupportedLine: Line := Line("Voice recognition not supported in this browser", Error)
  const ConnectionErrorLine: Line := Line("❌ Could not connect to server", Error)
  const ErrorPrefix: string := "❌ Error: "
  const PersonalityPrefix: string := "🎭 Personality: "

  /** The reply's audio is played directly rather than spoken by the browser. */
  predicate IsPremium(outcome: SpeechOutcome)
  {
    outcome.Synthesized? && outcome.provider == PremiumProvider && outcome.audio != ""
  }

  class Terminal {
    /** The browser offers speech recognition (the recognizer exists). */
    const hasRecognition: bool
    /** The browser offers speech synthesis. */
    const hasSynthesis: bool

    var isVoiceMode: bool
    var isSpeaking: bool
    var isListeningForWakeWord: bool
    /** The text box's contents. */
    var input: string
    var currentPersonality: string
    var personalityIndex: nat
    /** The terminal's lines, oldest first. */
    var lines: seq<Line>
    /** Delays of the recognition restarts scheduled and not yet fired. */
    var pendingRestarts: seq<nat>
    /** Every call made so far, oldest first. */
    var commands: seq<Command>

    /** The personality index stays on the ring; without a recognizer the
        terminal never enters a listening mode, never schedules a restart
        and never talks to a recognizer; without a synthesizer it never talks
        to one. */
    ghost predicate Valid()
      reads this
    {
      && personalityIndex < |Personalities|
      && (!hasRecognition ==>
            && !isVoiceMode && !isListeningForWakeWord && pendingRestarts == []
            && forall i :: 0 <= i < |commands| ==> !IsRecognitionCommand(commands[i]))
      && (!hasSynthesis ==>
            forall i :: 0 <= i < |commands| ==> !IsSynthesisCommand(commands[i]))
    }

    /** `recognitionRef.current?.start()`. */
    ghost function RecognitionStart(): seq<Command>
      reads this
    {
      if hasRecognition then [StartRecognition] else []
    }

    /** `recognitionRef.current?.stop()`. */
    ghost function RecognitionStop(): seq<Command>
      reads this
    {
      if hasRecognition then [StopRecognition] else []
    }

    /** What `stopSpeaking` sends. */
    ghost function SilenceCommands(): seq<Command>
      reads this
    {
      if hasSynthesis then [CancelSpeech, RewindPageAudio] else []
    }

    /** What `stopSpeaking` schedules. */
    ghost function SilenceRestarts(): seq<nat>
      reads this
    {
      if hasSynthesis && isVoiceMode then [KeepListeningDelay] else []
    }

    /** What `askQuestion(question)` sends, in order. */
    ghost function AskCommands(question: string): seq<Command>
      reads this
    {
      if question == "" then []
      else SilenceCommands() + (if isVoiceMode then RecognitionStop() else []) + [Ask(question)]
    }

    /** What `askQuestion(question)` schedules. */
    ghost function AskRestarts(question: string): seq<nat>
      reads this
    {
      if question == "" then [] else SilenceRestarts()
    }

    /** The lines `askQuestion(question)` adds. */
    ghost function AskLines(question: string): seq<Line>
      reads this
    {
      if question == "" then [] else [ThinkingLine]
    }

    /** `isSpeaking` after `askQuestion(question)`. */
    ghost function SpeakingAfterAsk(question: string): bool
      reads this
    {
      isSpeaking && (question == "" || !hasSynthesis)
    }

    /** What `useBrowserTTS(text)` sends with the browser's voices. */
    ghost function BrowserSpeech(text: string, voices: seq<Voice>): seq<Command>
      reads this
    {
      if hasSynthesis then [CancelSpeech, SpeakWithBrowser(text, FindVoice(voices))] else []
    }

    /** The restart re-armed when speech ends or an answer fails. */
    ghost function AfterSpeechRestarts(): seq<nat>
      reads this
    {
      if isVoiceMode then [AfterSpeechDelay] else []
    }

    /** The first render: no mode, nothing said, the greeting lines. */
    constructor (hasRecognition: bool, hasSynthesis: bool)
      ensures Valid()
      ensures this.hasRecognition == hasRecognition && this.hasSynthesis == hasSynthesis
      ensures !isVoiceMode && !isSpeaking && !isListeningForWakeWord
      ensures input == "" && currentPersonality == "auto" && personalityIndex == 0
      ensures lines == InitialLines && pendingRestarts == [] && commands == []
    {
      this.hasRecognition := hasRecognition;
      this.hasSynthesis := hasSynthesis;
      isVoiceMode, isSpeaking, isListeningForWakeWord := false, false, false;
      input, currentPersonality, personalityIndex := "", "auto", 0;
      lines, pendingRestarts, commands := InitialLines, [], [];
    }

    /** `addLine`: one more line at the bottom. */
    method AddLine(text: string, kind: LineKind)
      modifies this`lines
      ensures lines == old(lines) + [Line(text, kind)]
    {
      lines := lines + [Line(text, kind)];
    }

    /** `setTimeout(() => recognition.start(), delay)`. */
    method ScheduleRestart(delay: nat)
      modifies this`pendingRestarts
      ensures pendingRestarts == old(pendingRestarts) + [delay]
    {
      pendingRestarts := pendingRestarts + [delay];
    }

    method StartRecognitionNow()
      modifies this`commands
      ensures commands == old(commands) + RecognitionStart()
    {
      if hasRecognition {
        commands := commands + [StartRecognition];
      }
    }

    method StopRecognitionNow()
      modifies this`commands
      ensures commands == old(commands) + RecognitionStop()
    {
      if hasRecognition {
        commands := commands + [StopRecognition];
      }
    }

    /** The effect run after mounting: status polling starts, and with a
        recognizer the terminal announces wake-word listening, enters it and
        starts recognition after the startup delay. React runs this body
        again whenever one of the three flags changes. */
    method RunEffect()
      requires Valid()
      modifies this`lines, this`isListeningForWakeWord, this`commands, this`pendingRestarts
      ensures Valid()
      ensures commands == old(commands) + [RefreshStatus, PollStatus(StatusPeriod)]
      ensures hasRecognition ==>
        && isListeningForWakeWord
        && lines == old(lines) + [ListeningLine, Blank]
        && pendingRestarts == old(pendingRestarts) + [StartupDelay]
      ensures !hasRecognition ==>
        && isListeningForWakeWord == old(isListeningForWakeWord)
        && lines == old(lines) && pendingRestarts == old(pendingRestarts)
    {
      commands := commands + [RefreshStatus, PollStatus(StatusPeriod)];
      if hasRecognition {
        AddLine(ListeningLine.text, System);
        AddLine("", Normal);
        isListeningForWakeWord := true;
        ScheduleRestart(StartupDelay);
      }
    }

    /** A scheduled restart fires: it starts recognition whatever the modes
        and the speaking flag are by then. */
    method FireRestart(k: nat)
      requires Valid()
      requires k < |pendingRestarts|
      modifies this`pendingRestarts, this`commands
      ensures Valid()
      ensures pendingRestarts == old(pendingRestarts[..k] + pendingRestarts[k + 1..])
      ensures commands == old(commands) + [StartRecognition]
    {
      pendingRestarts := pendingRestarts[..k] + pendingRestarts[k + 1..];
      StartRecognitionNow();
    }

    /** `startVoiceMode`: active listening, wake-word listening off,
        announced, recognition started at once. It is reached only once the
        recognizer exists. */
    method StartVoiceMode()
      requires Valid() && hasRecognition
      modifies this`isVoiceMode, this`isListeningForWakeWord, this`lines, this`commands
      ensures Valid()
      ensures isVoiceMode && !isListeningForWakeWord
      ensures lines == old(lines) + VoiceModeLines
      ensures commands == old(commands) + [StartRecognition]
    {
      isVoiceMode := true;
      isListeningForWakeWord := false;
      AddLine(VoiceModeLines[0].text, System);
      AddLine(VoiceModeLines[1].text, System);
      AddLine("", Normal);
      StartRecognitionNow();
    }

    /** `stopVoiceMode`: both listening modes off, recognition stopped. */
    method StopVoiceMode()
      requires Valid()
      modifies this`isVoiceMode, this`isListeningForWakeWord, this`commands
      ensures Valid()
      ensures !isVoiceMode && !isListeningForWakeWord
      ensures commands == old(commands) + RecognitionStop()
    {
      isVoiceMode := false;
      isListeningForWakeWord := false;
      StopRecognitionNow();
    }

    /** `startWakeWordListening`: wake-word listening on, active listening
        off, recognition started at once. */
    method StartWakeWordListening()
      requires Valid() && hasRecognition
      modifies this`isVoiceMode, this`isListeningForWakeWord, this`commands
      ensures Valid()
      ensures !isVoiceMode && isListeningForWakeWord
      ensures commands == old(commands) + [StartRecognition]
    {
      isListeningForWakeWord := true;
      isVoiceMode := false;
      StartRecognitionNow();
    }

    /** `toggleVoiceMode`: without a recognizer only an error line; while
        active, `stopVoiceMode` (both modes off, not back to wake-word
        listening); otherwise `startVoiceMode`. */
    method ToggleVoiceMode()
      requires Valid()
      modifies this`isVoiceMode, this`isListeningForWakeWord, this`lines, this`commands
      ensures Valid()
      ensures !hasRecognition ==>
        && lines == old(lines) + [NotSupportedLine]
        && isVoiceMode == old(isVoiceMode) && isListeningForWakeWord == old(isListeningForWakeWord)
        && commands == old(commands)
      ensures hasRecognition && old(isVoiceMode) ==>
        && !isVoiceMode && !isListeningForWakeWord
        && lines == old(lines) && commands == old(commands) + [StopRecognition]
      ensures hasRecognition && !old(isVoiceMode) ==>
        && isVoiceMode && !isListeningForWakeWord
        && lines == old(lines) + VoiceModeLines && commands == old(commands) + [StartRecognition]
    {
      if !hasRecognition {
        AddLine(NotSupportedLine.text, Error);
        return;
      }
      if isVoiceMode {
        StopVoiceMode();
      } else {
        StartVoiceMode();
      }
    }

    /** `stopSpeaking`: with a synthesizer, the browser's voice is cancelled,
        the `<audio>` elements in the document are paused and rewound, the
        speaking flag cleared, and in voice mode a restart is scheduled;
        without one nothing happens. The premium audio is created apart from
        the document, so it is not among the elements rewound and keeps
        playing. */
    method StopSpeaking()
      requires Valid()
      modifies this`isSpeaking, this`commands, this`pendingRestarts
      ensures Valid()
      ensures hasSynthesis ==> !isSpeaking
      ensures !hasSynthesis ==> isSpeaking == old(isSpeaking)
      ensures commands == old(commands) + SilenceCommands()
      ensures pendingRestarts == old(pendingRestarts) + SilenceRestarts()
    {
      if hasSynthesis {
        commands := commands + [CancelSpeech];
        isSpeaking := false;
        commands := commands + [RewindPageAudio];
        if isVoiceMode {
          ScheduleRestart(KeepListeningDelay);
        }
      }
    }

    /** The synchronous part of `askQuestion`: an empty question is ignored;
        otherwise speech is stopped, recognition stopped in voice mode, the
        placeholder shown and the question sent. The reply arrives later,
        through `OnAnswer`. */
    method AskQuestion(question: string)
      requires Valid()
      modifies this`isSpeaking, this`lines, this`commands, this`pendingRestarts
      ensures Valid()
      ensures isSpeaking == old(SpeakingAfterAsk(question))
      ensures lines == old(lines) + AskLines(question)
      ensures commands == old(commands) + old(AskCommands(question))
      ensures pendingRestarts == old(pendingRestarts) + old(AskRestarts(question))
    {
      if question == "" {
        return;
      }
      StopSpeaking();
      if isVoiceMode {
        StopRecognitionNow();
      }
      AddLine(ThinkingLine.text, System);
      commands := commands + [Ask(question)];
    }

    /** `recognition.onresult`, given the recognizer's raw transcript, which
        is trimmed and lower-cased first. While listening for the wake word,
        a wake word starts voice mode and anything else schedules another
        attempt. Otherwise (whatever `isVoiceMode` is) a sleep word returns to
        wake-word listening, and anything else is shown as a prompt and
        asked. */
    method OnResult(raw: string)
      requires Valid() && hasRecognition
      modifies this`isVoiceMode, this`isListeningForWakeWord, this`isSpeaking, this`lines,
        this`commands, this`pendingRestarts
      ensures Valid()
      // a wake word while asleep: voice mode, nothing asked
      ensures old(isListeningForWakeWord) && MatchesAny(Normalize(raw), WakeWords) ==>
        && isVoiceMode && !isListeningForWakeWord && isSpeaking == old(isSpeaking)
        && lines == old(lines) + [WakeDetectedLine, Blank] + VoiceModeLines
        && commands == old(commands) + [StartRecognition]
        && pendingRestarts == old(pendingRestarts)
      // anything else while asleep: one more attempt after 300 ms, nothing else
      ensures old(isListeningForWakeWord) && !MatchesAny(Normalize(raw), WakeWords) ==>
        && isVoiceMode == old(isVoiceMode) && isListeningForWakeWord
        && isSpeaking == old(isSpeaking)
        && lines == old(lines) && commands == old(commands)
        && pendingRestarts == old(pendingRestarts) + [KeepListeningDelay]
      // a sleep word otherwise: back to wake-word listening, nothing asked
      ensures !old(isListeningForWakeWord) && MatchesAny(Normalize(raw), SleepWords) ==>
        && !isVoiceMode && isListeningForWakeWord && isSpeaking == old(isSpeaking)
        && lines == old(lines) + [SleepLine, Blank]
        && commands == old(commands) + [StopRecognition, StartRecognition]
        && pendingRestarts == old(pendingRestarts)
      // a question otherwise: shown verbatim as a prompt, then asked
      ensures !old(isListeningForWakeWord) && !MatchesAny(Normalize(raw), SleepWords) ==>
        && isVoiceMode == old(isVoiceMode) && !isListeningForWakeWord
        && isSpeaking == old(SpeakingAfterAsk(Normalize(raw)))
        && lines == old(lines) + [Line(Normalize(raw), Prompt)] + AskLines(Normalize(raw))
        && commands == old(commands) + old(AskCommands(Normalize(raw)))
        && pendingRestarts == old(pendingRestarts) + old(AskRestarts(Normalize(raw)))
    {
      var transcript := Normalize(raw);
      if isListeningForWakeWord {
        HearWhileAsleep(transcript);
      } else {
        HearWhileAwake(transcript);
      }
    }

    /** `onresult` while listening for the wake word. */
    method HearWhileAsleep(transcript: string)
      requires Valid() && isListeningForWakeWord
      modifies this`isVoiceMode, this`isListeningForWakeWord, this`lines, this`commands,
        this`pendingRestarts
      ensures Valid()
      ensures MatchesAny(transcript, WakeWords) ==>
        && isVoiceMode && !isListeningForWakeWord
        && lines == old(lines) + [WakeDetectedLine, Blank] + VoiceModeLines
        && commands == old(commands) + [StartRecognition]
        && pendingRestarts == old(pendingRestarts)
      ensures !MatchesAny(transcript, WakeWords) ==>
        && isVoiceMode == old(isVoiceMode) && isListeningForWakeWord
        && lines == old(lines) && commands == old(commands)
        && pendingRestarts == old(pendingRestarts) + [KeepListeningDelay]
    {
      if MatchesAny(transcript, WakeWords) {
        AddLine(WakeDetectedLine.text, System);
        AddLine("", Normal);
        StartVoiceMode();
        return;
      }
      ScheduleRestart(KeepListeningDelay);
    }

    /** `onresult` while not listening for the wake word. */
    method HearWhileAwake(transcript: string)
      requires Valid() && hasRecognition && !isListeningForWakeWord
      modifies this`isVoiceMode, this`isListeningForWakeWord, this`isSpeaking, this`lines,
        this`commands, this`pendingRestarts
      ensures Valid()
      ensures MatchesAny(transcript, SleepWords) ==>
        && !isVoiceMode && isListeningForWakeWord && isSpeaking == old(isSpeaking)
        && lines == old(lines) + [SleepLine, Blank]
        && commands == old(commands) + [StopRecognition, StartRecognition]
        && pendingRestarts == old(pendingRestarts)
      ensures !MatchesAny(transcript, SleepWords) ==>
        && isVoiceMode == old(isVoiceMode) && !isListeningForWakeWord
        && isSpeaking == old(SpeakingAfterAsk(transcript))
        && lines == old(lines) + [Line(transcript, Prompt)] + AskLines(transcript)
        && commands == old(commands) + old(AskCommands(transcript))
        && pendingRestarts == old(pendingRestarts) + old(AskRestarts(transcript))
    {
      if MatchesAny(transcript, SleepWords) {
        StopVoiceMode();
        AddLine(SleepLine.text, System);
        AddLine("", Normal);
        StartWakeWordListening();
        return;
      }
      AddLine(transcript, Prompt);
      AskQuestion(transcript);
    }

    /** `recognition.onerror`: a retry after 500 ms exactly when a listening
        mode is on and nothing is being spoken. */
    method OnError()
      requires Valid()
      modifies this`pendingRestarts
      ensures Valid()
      ensures pendingRestarts == old(pendingRestarts) +
        if (isVoiceMode || isListeningForWakeWord) && !isSpeaking then [ErrorRetryDelay] else []
    {
      if (isVoiceMode || isListeningForWakeWord) && !isSpeaking {
        ScheduleRestart(ErrorRetryDelay);
      }
    }

    /** `recognition.onend`: a restart after 300 ms exactly when a listening
        mode is on and nothing is being spoken. */
    method OnEnd()
      requires Valid()
      modifies this`pendingRestarts
      ensures Valid()
      ensures pendingRestarts == old(pendingRestarts) +
        if (isVoiceMode || isListeningForWakeWord) && !isSpeaking then [KeepListeningDelay] else []
    {
      if (isVoiceMode || isListeningForWakeWord) && !isSpeaking {
        ScheduleRestart(KeepListeningDelay);
      }
    }

    /** The reply to a question arrives. With a reply, a trailing "Thinking"
        line is removed first; an answer is shown, spoken and followed by a
        status refresh; an error status is shown and listening re-armed in
        voice mode. Without a usable reply the connection error is shown (the
        placeholder stays) and listening re-armed in voice mode. */
    method OnAnswer(outcome: AskOutcome)
      requires Valid()
      modifies this`lines, this`currentPersonality, this`isSpeaking, this`commands,
        this`pendingRestarts
      ensures Valid()
      ensures outcome.Answered? ==>
        && lines == DropThinkingPlaceholder(old(lines)) + [Line(outcome.answer, Response), Blank]
        && currentPersonality ==
             (if outcome.personality != "" then outcome.personality else old(currentPersonality))
        && isSpeaking
        && commands == old(commands) + [RequestSpeech(outcome.answer), RefreshStatus]
        && pendingRestarts == old(pendingRestarts)
      ensures outcome.Rejected? ==>
        && lines == DropThinkingPlaceholder(old(lines)) + [Line(ErrorPrefix + outcome.error, Error), Blank]
        && currentPersonality == old(currentPersonality)
        && !isSpeaking
        && commands == old(commands)
        && pendingRestarts == old(pendingRestarts) + AfterSpeechRestarts()
      ensures outcome.NoConnection? ==>
        && lines == old(lines) + [ConnectionErrorLine, Blank]
        && currentPersonality == old(currentPersonality)
        && !isSpeaking
        && commands == old(commands)
        && pendingRestarts == old(pendingRestarts) + AfterSpeechRestarts()
    {
      match outcome {
        case NoConnection => ConnectionFailed();
        case Answered(answer, personality) => ShowAnswer(answer, personality);
        case Rejected(error) => ShowRejection(error);
      }
    }

    /** `askQuestion`'s catch branch: no usable reply. */
    method ConnectionFailed()
      requires Valid()
      modifies this`lines, this`isSpeaking, this`pendingRestarts
      ensures Valid()
      ensures lines == old(lines) + [ConnectionErrorLine, Blank]
      ensures !isSpeaking
      ensures pendingRestarts == old(pendingRestarts) + AfterSpeechRestarts()
    {
      AddLine(ConnectionErrorLine.text, Error);
      AddLine("", Normal);
      isSpeaking := false;
      if isVoiceMode {
        ScheduleRestart(AfterSpeechDelay);
      }
    }

    /** A reply with `success`: the answer shown and its speech requested. */
    method ShowAnswer(answer: string, personality: string)
      requires Valid()
      modifies this`lines, this`currentPersonality, this`isSpeaking, this`commands
      ensures Valid()
      ensures lines == DropThinkingPlaceholder(old(lines)) + [Line(answer, Response), Blank]
      ensures currentPersonality == (if personality != "" then personality else old(currentPersonality))
      ensures isSpeaking
      ensures commands == old(commands) + [RequestSpeech(answer), RefreshStatus]
    {
      lines := DropThinkingPlaceholder(lines);
      AddLine(answer, Response);
      if personality != "" {
        currentPersonality := personality;
      }
      AddLine("", Normal);
      isSpeaking := true;
      commands := commands + [RequestSpeech(answer), RefreshStatus];
    }

    /** A reply without `success`: its error shown. */
    method ShowRejection(error: string)
      requires Valid()
      modifies this`lines, this`isSpeaking, this`pendingRestarts
      ensures Valid()
      ensures lines == DropThinkingPlaceholder(old(lines)) + [Line(ErrorPrefix + error, Error), Blank]
      ensures !isSpeaking
      ensures pendingRestarts == old(pendingRestarts) + AfterSpeechRestarts()
    {
      lines := DropThinkingPlaceholder(lines);
      AddLine(ErrorPrefix + error, Error);
      AddLine("", Normal);
      isSpeaking := false;
      if isVoiceMode {
        ScheduleRestart(AfterSpeechDelay);
      }
    }

    /** `useBrowserTTS`: with a synthesizer, anything being spoken is
        cancelled and the text spoken in the first preferred voice. */
    method UseBrowserTTS(text: string, voices: seq<Voice>)
      requires Valid()
      modifies this`commands
      ensures Valid()
      ensures commands == old(commands) + BrowserSpeech(text, voices)
    {
      if !hasSynthesis {
        return;
      }
      commands := commands + [CancelSpeech];
      commands := commands + [SpeakWithBrowser(text, FindVoice(voices))];
    }

    /** The reply of the text-to-speech route for the answer `answerText`:
        premium audio is played; anything else (another provider, no audio,
        a failed request) falls back to the browser's voice. */
    method OnSpeechReply(answerText: string, outcome: SpeechOutcome, voices: seq<Voice>)
      requires Valid()
      modifies this`commands
      ensures Valid()
      ensures IsPremium(outcome) ==> commands == old(commands) + [PlayPremiumAudio(outcome.audio)]
      ensures !IsPremium(outcome) ==> commands == old(commands) + BrowserSpeech(answerText, voices)
    {
      if IsPremium(outcome) {
        commands := commands + [PlayPremiumAudio(outcome.audio)];
      } else {
        UseBrowserTTS(answerText, voices);
      }
    }

    /** Shared body of the callbacks that end speech: not speaking, and in
        voice mode a restart after 1000 ms. */
    method EndSpeaking()
      requires Valid()
      modifies this`isSpeaking, this`pendingRestarts
      ensures Valid()
      ensures !isSpeaking
      ensures pendingRestarts == old(pendingRestarts) + AfterSpeechRestarts()
    {
      isSpeaking := false;
      if isVoiceMode {
        ScheduleRestart(AfterSpeechDelay);
      }
    }

    /** `utterance.onstart`. */
    method OnUtteranceStart()
      requires Valid()
      modifies this`isSpeaking
      ensures Valid()
      ensures isSpeaking
    {
      isSpeaking := true;
    }

    /** `utterance.onend`. */
    method OnUtteranceEnd()
      requires Valid()
      modifies this`isSpeaking, this`pendingRestarts
      ensures Valid()
      ensures !isSpeaking
      ensures pendingRestarts == old(pendingRestarts) + AfterSpeechRestarts()
    {
      EndSpeaking();
    }

    /** `utterance.onerror`: the same as its end. */
    method OnUtteranceError()
      requires Valid()
      modifies this`isSpeaking, this`pendingRestarts
      ensures Valid()
      ensures !isSpeaking
      ensures pendingRestarts == old(pendingRestarts) + AfterSpeechRestarts()
    {
      EndSpeaking();
    }

    /** `audio.onended` for premium audio. */
    method OnAudioEnded()
      requires Valid()
      modifies this`isSpeaking, this`pendingRestarts
      ensures Valid()
      ensures !isSpeaking
      ensures pendingRestarts == old(pendingRestarts) + AfterSpeechRestarts()
    {
      EndSpeaking();
    }

    /** `audio.onerror` for premium audio: the browser's voice takes over;
        the speaking flag is left as it is. */
    method OnAudioError(answerText: string, voices: seq<Voice>)
      requires Valid()
      modifies this`commands
      ensures Valid()
      ensures commands == old(commands) + BrowserSpeech(answerText, voices)
    {
      UseBrowserTTS(answerText, voices);
    }

    /** The text box changes. */
    method EditInput(text: string)
      requires Valid()
      modifies this`input
      ensures Valid()
      ensures input == text
    {
      input := text;
    }

    /** `handleSubmit`: a typed question that is not blank is shown as typed,
        asked as typed (not trimmed, not lower-cased, whatever the listening
        mode) and the box cleared; a blank one changes nothing. */
    method HandleSubmit()
      requires Valid()
      modifies this`input, this`isSpeaking, this`lines, this`commands, this`pendingRestarts
      ensures Valid()
      ensures Trim(old(input)) == "" ==>
        && input == old(input) && isSpeaking == old(isSpeaking) && lines == old(lines)
        && commands == old(commands) && pendingRestarts == old(pendingRestarts)
      ensures Trim(old(input)) != "" ==>
        && input == ""
        && isSpeaking == (old(isSpeaking) && !hasSynthesis)
        && lines == old(lines) + [Line(old(input), Prompt), ThinkingLine]
        && commands == old(commands) + old(SilenceCommands()) +
             (if isVoiceMode then [StopRecognition] else []) + [Ask(old(input))]
        && pendingRestarts == old(pendingRestarts) + old(SilenceRestarts())
    {
      if Trim(input) != "" {
        var question := input;
        AddLine(question, Prompt);
        AskQuestion(question);
        input := "";
      }
    }

    /** The synchronous part of `cyclePersonality`: the next mode on the
        ring is chosen and requested. */
    method CyclePersonality()
      requires Valid()
      modifies this`personalityIndex, this`commands
      ensures Valid()
      ensures personalityIndex == NextIndex(old(personalityIndex))
      ensures commands == old(commands) + [RequestPersonality(Personalities[personalityIndex])]
    {
      personalityIndex := NextIndex(personalityIndex);
      var newMode := Personalities[personalityIndex];
      commands := commands + [RequestPersonality(newMode)];
    }

    /** The personality route's reply to the change to `newMode`: on success
        the mode is shown and announced; otherwise nothing changes. */
    method OnPersonalityReply(newMode: string, outcome: PersonalityOutcome)
      requires Valid()
      modifies this`currentPersonality, this`lines
      ensures Valid()
      ensures outcome.Switched? && outcome.success ==>
        && currentPersonality == newMode
        && lines == old(lines) +
             [Line(PersonalityPrefix + newMode + " - " + outcome.description, System), Blank]
      ensures !(outcome.Switched? && outcome.success) ==>
        currentPersonality == old(currentPersonality) && lines == old(lines)
    {
      if outcome.Switched? && outcome.success {
        currentPersonality := newMode;
        AddLine(PersonalityPrefix + newMode + " - " + outcome.description, System);
        AddLine("", Normal);
      }
    }
  }
}
