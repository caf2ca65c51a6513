/** Choice of the on-device voice for the browser speech fallback
    (app/page.tsx, `useBrowserTTS`). */
module Voices {
  import opened Phrases

  datatype Option<T> = None | Some(value: T)

  /** A voice offered by the browser's speech synthesizer, known by its name. */
  datatype Voice = Voice(name: string)

  /** Name fragments of the preferred voices, matched case-sensitively. */
  const PreferredNames: seq<string> := ["Samantha", "Ava", "Victoria", "Female"]

  predicate IsPreferred(v: Voice)
  {
    MatchesAny(v.name, PreferredNames)
  }

  /** `voices.find(...)`: the first preferred voice in the browser's list, or
      none when no voice is preferred (the platform default is then used). */
  function FindVoice(voices: seq<Voice>): (r: Option<Voice>)
    ensures r.None? <==> forall i :: 0 <= i < |voices| ==> !IsPreferred(voices[i])
    ensures r.Some? ==> exists i :: (0 <= i < |voices| && voices[i] == r.value &&
      IsPreferred(r.value) && forall j :: 0 <= j < i ==> !IsPreferred(voices[j]))
  {
    if voices == [] then None
    else if IsPreferred(voices[0]) then Some(voices[0])
    else
      var r := FindVoice(voices[1..]);
      assert r.Some? ==> exists i :: (1 <= i < |voices| && voices[i] == r.value &&
        forall j :: 0 <= j < i ==> !IsPreferred(voices[j])) by {
        if r.Some? {
          var i :| 0 <= i < |voices[1..]| && voices[1..][i] == r.value &&
            forall j :: 0 <= j < i ==> !IsPreferred(voices[1..][j]);
          assert forall j :: 0 <= j < i + 1 ==> !IsPreferred(voices[j]) by {
            forall j | 0 <= j < i + 1 ensures !IsPreferred(voices[j]) {
              if j > 0 { assert voices[j] == voices[1..][j - 1]; }
            }
          }
        }
      }
      r
  }

  /** Adding voices behind a preferred one never changes the choice. */
  lemma {:induction false} FindVoiceIgnoresLaterVoices(voices: seq<Voice>, more: seq<Voice>)
    requires FindVoice(voices).Some?
    ensures FindVoice(voices + more) == FindVoice(voices)
  {
    if IsPreferred(voices[0]) {
      assert (voices + more)[0] == voices[0];
    } else {
      assert (voices + more)[1..] == voices[1..] + more;
      FindVoiceIgnoresLaterVoices(voices[1..], more);
    }
  }
}
