/** Runs of the voice terminal put together from the handlers' contracts
    alone: the wake and sleep phrases, a spoken question answered and spoken
    back, and what happens in a browser that recognizes speech but cannot
    synthesize it. */
module Scenarios {
  import opened Phrases
  import opened Voices
  import opened TerminalLines
  import opened VoiceTerminal

  /** While the terminal waits for its name, an utterance without a wake word
      ("good morning", see `GreetingHeard`) only asks for one more
      recognition attempt after 300 ms; one with a wake word ("hey stewie",
      see `NameHeard`) then switches to voice mode and starts recognition at
      once, without asking anything. */
  method WakeByName(t: Terminal, noise: string, name: string)
    requires t.Valid() && t.hasRecognition && t.isListeningForWakeWord
    requires !MatchesAny(Normalize(noise), WakeWords)
    requires MatchesAny(Normalize(name), WakeWords)
    modifies t
    ensures t.Valid()
    ensures t.isVoiceMode && !t.isListeningForWakeWord && t.isSpeaking == old(t.isSpeaking)
    ensures t.pendingRestarts == old(t.pendingRestarts) + [KeepListeningDelay]
    ensures t.commands == old(t.commands) + [StartRecognition]
    ensures t.lines == old(t.lines) + [WakeDetectedLine, Blank] + VoiceModeLines
  {
    t.OnResult(noise);
    assert t.isListeningForWakeWord && t.lines == old(t.lines);
    assert t.commands == old(t.commands);
    t.OnResult(name);
  }

  lemma GreetingHeard()
    ensures !MatchesAny(Normalize("good morning"), WakeWords)
  {
    NormalizeOfClean("good morning");
    GreetingDoesNotWake();
  }

  lemma NameHeard()
    ensures MatchesAny(Normalize("hey stewie"), WakeWords)
  {
    NormalizeOfClean("hey stewie");
    NameWakes("hey ", "");
  }

  /** In voice mode a sleep word ("quit", see `QuitHeard`) sends the terminal
      back to wake-word listening: recognition is stopped and restarted, and
      nothing is asked. */
  method SleepOnCommand(t: Terminal, phrase: string)
    requires t.Valid() && t.hasRecognition && t.isVoiceMode && !t.isListeningForWakeWord
    requires MatchesAny(Normalize(phrase), SleepWords)
    modifies t
    ensures t.Valid()
    ensures !t.isVoiceMode && t.isListeningForWakeWord && t.isSpeaking == old(t.isSpeaking)
    ensures t.lines == old(t.lines) + [SleepLine, Blank]
    ensures t.commands == old(t.commands) + [StopRecognition, StartRecognition]
    ensures t.pendingRestarts == old(t.pendingRestarts)
  {
    t.OnResult(phrase);
  }

  lemma QuitHeard()
    ensures MatchesAny(Normalize("quit"), SleepWords)
  {
    NormalizeOfClean("quit");
    QuitSleeps();
  }

  /** A spoken question in voice mode ("how are the pods", see
      `PodsQuestionHeard`) is shown as typed and asked: speech is silenced
      (which schedules a 300 ms restart), recognition is stopped, the
      placeholder is shown and the question sent. */
  method SpokenQuestionAsked(t: Terminal, question: string)
    requires t.Valid() && t.hasRecognition && t.hasSynthesis
    requires t.isVoiceMode && !t.isListeningForWakeWord && !t.isSpeaking
    requires question != "" && Normalize(question) == question
    requires !MatchesAny(question, SleepWords)
    modifies t
    ensures t.Valid()
    ensures t.isVoiceMode && !t.isListeningForWakeWord && !t.isSpeaking
    ensures t.lines == old(t.lines) + [Line(question, Prompt), ThinkingLine]
    ensures t.commands == old(t.commands) + [CancelSpeech, RewindPageAudio, StopRecognition, Ask(question)]
    ensures t.pendingRestarts == old(t.pendingRestarts) + [KeepListeningDelay]
  {
    t.OnResult(question);
  }

  /** The answer to an asked question replaces the placeholder and is
      requested as speech; the TTS route offers no premium audio, so the
      browser speaks the exact answer; when it finishes, recognition is
      re-armed after 1000 ms. */
  method AnswerSpokenBack(t: Terminal, asked: seq<Line>, answer: string, voices: seq<Voice>)
    requires t.Valid() && t.hasSynthesis && t.isVoiceMode && !t.isSpeaking
    requires t.lines == asked + [ThinkingLine]
    modifies t
    ensures t.Valid()
    ensures t.isVoiceMode && !t.isSpeaking
    ensures t.lines == asked + [Line(answer, Response), Blank]
    ensures t.commands == old(t.commands) + [RequestSpeech(answer), RefreshStatus,
      CancelSpeech, SpeakWithBrowser(answer, FindVoice(voices))]
    ensures t.pendingRestarts == old(t.pendingRestarts) + [AfterSpeechDelay]
  {
    PlaceholderRemoved(asked);
    t.OnAnswer(Answered(answer, ""));
    ghost var sent := old(t.commands) + [RequestSpeech(answer), RefreshStatus];
    assert t.commands == sent && t.isSpeaking && t.isVoiceMode;
    assert t.pendingRestarts == old(t.pendingRestarts);
    t.OnSpeechReply(answer, Synthesized("none", ""), voices);
    assert t.commands == sent + [CancelSpeech, SpeakWithBrowser(answer, FindVoice(voices))];
    t.OnUtteranceStart();
    t.OnUtteranceEnd();
  }

  lemma PodsQuestionClean()
    ensures Normalize("how are the pods") == "how are the pods"
  {
    NormalizeOfClean("how are the pods");
  }

  lemma PodsQuestionHeard()
    ensures !MatchesAny("how are the pods", SleepWords)
  {
    var s := "how are the pods";
    forall k | 0 <= k < |SleepWords| ensures !Contains(s, SleepWords[k]) {
      var w := SleepWords[k];
      var c := if k == 0 then 'q' else if k == 1 then 'x' else if k == 2 then 'l' else 'i';
      assert w[if k == 0 then 0 else if k == 1 then 1 else if k == 3 then 6 else 1] == c;
      forall i | 0 <= i && i + |w| <= |s| ensures !OccursAt(s, w, i) {
        assert c !in s;
      }
      ContainsIffOccurs(s, w);
    }
    MatchesAnyIffSome(s, SleepWords);
  }

  /** Entering voice mode changes a dependency of the mount effect, which
      runs again: it announces wake-word listening once more, turns it on
      beside voice mode and schedules another startup restart. A question
      spoken next goes down the wake-word branch: it is neither shown nor
      asked, and only a 300 ms restart is scheduled. */
  method EffectRerunAfterVoiceMode(t: Terminal, question: string)
    requires t.Valid() && t.hasRecognition && !t.isVoiceMode
    requires !MatchesAny(Normalize(question), WakeWords)
    modifies t
    ensures t.Valid()
    ensures t.isVoiceMode && t.isListeningForWakeWord
    ensures t.lines == old(t.lines) + VoiceModeLines + [ListeningLine, Blank]
    ensures t.commands == old(t.commands) + [StartRecognition, RefreshStatus, PollStatus(StatusPeriod)]
    ensures t.pendingRestarts == old(t.pendingRestarts) + [StartupDelay, KeepListeningDelay]
  {
    t.ToggleVoiceMode();
    assert t.lines == old(t.lines) + VoiceModeLines;
    t.RunEffect();
    assert t.pendingRestarts == old(t.pendingRestarts) + [StartupDelay];
    t.OnResult(question);
  }

  /** The stop button does not silence premium audio: it cancels the
      browser's voice and rewinds the `<audio>` elements in the document,
      which the premium audio is not one of. No command stops that audio, and
      its end still arrives afterwards and schedules a second restart. */
  method StopLeavesPremiumAudioPlaying(t: Terminal, answer: string, audio: string, voices: seq<Voice>)
    requires t.Valid() && t.hasSynthesis && t.isVoiceMode && t.isSpeaking
    requires audio != ""
    modifies t
    ensures t.Valid()
    ensures !t.isSpeaking
    ensures t.commands == old(t.commands) + [PlayPremiumAudio(audio), CancelSpeech, RewindPageAudio]
    ensures t.pendingRestarts == old(t.pendingRestarts) + [KeepListeningDelay, AfterSpeechDelay]
  {
    t.OnSpeechReply(answer, Synthesized(PremiumProvider, audio), voices);
    assert t.commands == old(t.commands) + [PlayPremiumAudio(audio)];
    t.StopSpeaking();
    assert t.isVoiceMode;
    assert t.pendingRestarts == old(t.pendingRestarts) + [KeepListeningDelay];
    t.OnAudioEnded();
  }

  /** Without a speech synthesizer an answer that gets no premium audio is
      never spoken, yet the speaking flag set when the answer arrived stays
      set: neither the stop button nor recognition's end or error clears it,
      and those two no longer re-arm listening. */
  method SilentBrowserStaysSpeaking(t: Terminal, question: string, answer: string, voices: seq<Voice>)
    requires t.Valid() && t.hasRecognition && !t.hasSynthesis
    requires t.isVoiceMode && !t.isListeningForWakeWord
    requires question != ""
    modifies t
    ensures t.Valid()
    ensures t.isVoiceMode && t.isSpeaking
    ensures t.pendingRestarts == old(t.pendingRestarts)
    ensures forall i :: |old(t.commands)| <= i < |t.commands| ==> !t.commands[i].SpeakWithBrowser?
  {
    t.AskQuestion(question);
    ghost var sent := old(t.commands) + [StopRecognition, Ask(question)];
    assert t.commands == sent;
    assert t.pendingRestarts == old(t.pendingRestarts);
    PlaceholderRemoved(old(t.lines));
    t.OnAnswer(Answered(answer, ""));
    assert t.isSpeaking && t.pendingRestarts == old(t.pendingRestarts);
    assert t.commands == sent + [RequestSpeech(answer), RefreshStatus];
    t.OnSpeechReply(answer, SynthesisFailed, voices);
    t.StopSpeaking();
    t.OnEnd();
    t.OnError();
  }
}
