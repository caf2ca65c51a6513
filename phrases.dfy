/** Transcript clean-up and wake/sleep phrase matching of the voice terminal
    (app/page.tsx): `transcript.trim().toLowerCase()` and
    `words.some(word => transcript.includes(word))`. */
module Phrases {

  /** Phrases that wake the terminal while it listens for its name. */
  const WakeWords: seq<string> := ["hey stewie", "stewie", "hey stewart", "stewart"]

  /** Phrases that send an active terminal back to wake-word listening. */
  const SleepWords: seq<string> := ["quit", "exit", "sleep", "stop listening"]

  /** `sub` occurs in `s` starting at index `i`. */
  predicate OccursAt(s: string, sub: string, i: int)
  {
    0 <= i && i + |sub| <= |s| && s[i..i + |sub|] == sub
  }

  lemma OccursAfterHead(s: string, sub: string)
    requires s != []
    ensures forall i :: OccursAt(s[1..], sub, i) ==> OccursAt(s, sub, i + 1)
    ensures forall i :: 1 <= i && OccursAt(s, sub, i) ==> OccursAt(s[1..], sub, i - 1)
  {
    forall i | OccursAt(s[1..], sub, i) ensures OccursAt(s, sub, i + 1) {
      assert s[1..][i..i + |sub|] == s[i + 1..i + 1 + |sub|];
    }
    forall i | 1 <= i && OccursAt(s, sub, i) ensures OccursAt(s[1..], sub, i - 1) {
      assert s[1..][i - 1..i - 1 + |sub|] == s[i..i + |sub|];
    }
  }

  /** JavaScript's `s.includes(sub)`. */
  function Contains(s: string, sub: string): bool
    decreases |s|
  {
    if |sub| > |s| then false
    else if s[..|sub|] == sub then true
    else Contains(s[1..], sub)
  }

  /** `s.includes(sub)` holds exactly when `sub` occurs somewhere in `s` (the
      empty string occurs everywhere). */
  lemma {:induction false} ContainsIffOccurs(s: string, sub: string)
    ensures Contains(s, sub) <==> exists i :: OccursAt(s, sub, i)
    decreases |s|
  {
    if |sub| > |s| {
      assert forall i :: !OccursAt(s, sub, i);
    } else if s[..|sub|] == sub {
      assert OccursAt(s, sub, 0);
    } else {
      assert !OccursAt(s, sub, 0);
      OccursAfterHead(s, sub);
      ContainsIffOccurs(s[1..], sub);
    }
  }

  /** `words.some(word => transcript.includes(word))`. */
  function MatchesAny(transcript: string, words: seq<string>): bool
  {
    if words == [] then false
    else Contains(transcript, words[0]) || MatchesAny(transcript, words[1..])
  }

  /** The transcript matches exactly when it includes one of the words. */
  lemma {:induction false} MatchesAnyIffSome(transcript: string, words: seq<string>)
    ensures MatchesAny(transcript, words) <==>
      exists k :: 0 <= k < |words| && Contains(transcript, words[k])
  {
    if words != [] {
      MatchesAnyIffSome(transcript, words[1..]);
      assert forall k :: 1 <= k < |words| ==> words[k] == words[1..][k - 1];
    }
  }

  /** An occurrence survives surrounding the string with more text. */
  lemma {:induction false} ContainsInContext(pre: string, s: string, post: string, sub: string)
    requires Contains(s, sub)
    ensures Contains(pre + s + post, sub)
  {
    ContainsIffOccurs(s, sub);
    var i :| OccursAt(s, sub, i);
    var whole := pre + s + post;
    assert whole[|pre| + i..|pre| + i + |sub|] == s[i..i + |sub|];
    assert OccursAt(whole, sub, |pre| + i);
    ContainsIffOccurs(whole, sub);
  }

  /** A phrase that matches keeps matching when the user says more around it:
      "hey stewie" inside "ok hey stewie, are you there" still wakes. */
  lemma {:induction false} MatchesAnyInContext(pre: string, s: string, post: string, words: seq<string>)
    requires MatchesAny(s, words)
    ensures MatchesAny(pre + s + post, words)
  {
    MatchesAnyIffSome(s, words);
    var k :| 0 <= k < |words| && Contains(s, words[k]);
    ContainsInContext(pre, s, post, words[k]);
    MatchesAnyIffSome(pre + s + post, words);
  }

  /** Containment is transitive: text holding `w` holds every part of `w`. */
  lemma {:induction false} ContainsTransitive(s: string, w: string, part: string)
    requires Contains(s, w) && Contains(w, part)
    ensures Contains(s, part)
  {
    ContainsIffOccurs(s, w);
    ContainsIffOccurs(w, part);
    var i :| OccursAt(s, w, i);
    var j :| OccursAt(w, part, j);
    forall k | 0 <= k < |part| ensures s[i + j + k] == part[k] {
      assert part[k] == w[j..j + |part|][k] == w[j + k];
      assert w[j + k] == s[i..i + |w|][j + k] == s[i + j + k];
    }
    assert s[i + j..i + j + |part|] == part;
    assert OccursAt(s, part, i + j);
    ContainsIffOccurs(s, part);
  }

  // ---------------------------------------------------------------------
  // String.prototype.trim and toLowerCase

  /** The characters JavaScript's `trim` removes: WhiteSpace (tab, vertical
      tab, form feed, no-break space, byte order mark and every space
      separator) and LineTerminator (LF, CR, line and paragraph separators). */
  predicate IsTrimmed(c: char)
  {
    c == '\t' || c == '\n' || c == '\U{000B}' || c == '\U{000C}' || c == '\r' ||
    c == ' ' || c == '\U{00A0}' || c == '\U{1680}' || ('\U{2000}' <= c <= '\U{200A}') ||
    c == '\U{2028}' || c == '\U{2029}' || c == '\U{202F}' || c == '\U{205F}' ||
    c == '\U{3000}' || c == '\U{FEFF}'
  }

  /** How many trimmable characters `s` starts with. */
  function LeadingTrimmed(s: string): (n: nat)
    ensures n <= |s|
    ensures forall i :: 0 <= i < n ==> IsTrimmed(s[i])
    ensures n < |s| ==> !IsTrimmed(s[n])
  {
    if s != [] && IsTrimmed(s[0]) then 1 + LeadingTrimmed(s[1..]) else 0
  }

  /** Where the run of trimmable characters that `s` ends with begins. */
  function TrailingStart(s: string): (n: nat)
    ensures n <= |s|
    ensures forall i :: n <= i < |s| ==> IsTrimmed(s[i])
    ensures 0 < n ==> !IsTrimmed(s[n - 1])
  {
    if s != [] && IsTrimmed(s[|s| - 1]) then TrailingStart(s[..|s| - 1]) else |s|
  }

  /** JavaScript's `s.trim()`. */
  function Trim(s: string): (r: string)
    ensures |r| <= |s|
  {
    var b := TrailingStart(s);
    s[LeadingTrimmed(s[..b])..b]
  }

  /** `s.trim()` is the slice of `s` left after dropping trimmable
      characters at both ends, and it neither starts nor ends with one. */
  lemma TrimIsSlice(s: string)
    ensures exists a, b :: (0 <= a <= b <= |s| && Trim(s) == s[a..b] &&
      (forall i :: 0 <= i < a ==> IsTrimmed(s[i])) &&
      (forall i :: b <= i < |s| ==> IsTrimmed(s[i])))
    ensures Trim(s) != [] ==> !IsTrimmed(Trim(s)[0]) && !IsTrimmed(Trim(s)[|Trim(s)| - 1])
  {
    var b := TrailingStart(s);
    var kept := s[..b];
    var a := LeadingTrimmed(kept);
    assert Trim(s) == s[a..b];
    forall i | 0 <= i < a ensures IsTrimmed(s[i]) {
      assert s[i] == kept[i];
    }
    if a < b {
      assert Trim(s)[0] == kept[a];
      assert Trim(s)[|Trim(s)| - 1] == s[b - 1];
    }
  }

  /** Lower-casing of one character, for the ASCII letters. */
  function LowerChar(c: char): char
  {
    if 'A' <= c <= 'Z' then (c as int + 32) as char else c
  }

  /** `s.toLowerCase()`, for the ASCII letters. */
  function ToLower(s: string): (r: string)
    ensures |r| == |s|
  {
    if s == [] then [] else [LowerChar(s[0])] + ToLower(s[1..])
  }

  /** Lower-casing maps each character on its own and leaves no upper-case
      ASCII letter. */
  lemma {:induction false} ToLowerPointwise(s: string)
    ensures forall i :: 0 <= i < |s| ==> ToLower(s)[i] == LowerChar(s[i])
    ensures forall i :: 0 <= i < |s| ==> !('A' <= ToLower(s)[i] <= 'Z')
  {
    if s != [] {
      ToLowerPointwise(s[1..]);
      assert forall i :: 1 <= i < |s| ==> ToLower(s)[i] == ToLower(s[1..])[i - 1];
    }
  }

  /** The transcript as the result handler sees it:
      `transcript.trim().toLowerCase()`. */
  function Normalize(raw: string): string
  {
    ToLower(Trim(raw))
  }

  /** A string that neither starts nor ends with a trimmable character is its
      own trim. */
  lemma TrimOfTrimmed(s: string)
    requires s != [] ==> !IsTrimmed(s[0]) && !IsTrimmed(s[|s| - 1])
    ensures Trim(s) == s
  {
    assert TrailingStart(s) == |s|;
    assert s[..|s|] == s;
  }

  /** An utterance already trimmed and free of upper-case ASCII letters is
      passed on unchanged. */
  lemma NormalizeOfClean(s: string)
    requires s != [] ==> !IsTrimmed(s[0]) && !IsTrimmed(s[|s| - 1])
    requires forall i :: 0 <= i < |s| ==> !('A' <= s[i] <= 'Z')
    ensures Normalize(s) == s
  {
    TrimOfTrimmed(s);
    ToLowerPointwise(s);
    assert ToLower(s) == s;
  }

  /** Normalizing twice is normalizing once: the result handler's clean-up
      is stable, so a transcript already cleaned is passed on verbatim. */
  lemma {:induction false} NormalizeIdempotent(raw: string)
    ensures Normalize(Normalize(raw)) == Normalize(raw)
  {
    var t := Trim(raw);
    var n := ToLower(t);
    TrimIsSlice(raw);
    ToLowerPointwise(t);
    ToLowerPointwise(n);
    if n != [] {
      assert n[0] == LowerChar(t[0]);
      assert n[|n| - 1] == LowerChar(t[|t| - 1]);
    }
    TrimOfTrimmed(n);
    assert ToLower(n) == n;
  }

  // ---------------------------------------------------------------------
  // The phrases the terminal's users say

  /** The "hey ..." entries of the wake list add nothing: a transcript wakes
      the terminal exactly when it contains "stewie" or "stewart". */
  lemma WakesExactlyOnName(transcript: string)
    ensures MatchesAny(transcript, WakeWords) <==>
      Contains(transcript, "stewie") || Contains(transcript, "stewart")
  {
    MatchesAnyIffSome(transcript, WakeWords);
    assert WakeWords[1] == "stewie" && WakeWords[3] == "stewart";
    if Contains(transcript, WakeWords[0]) {
      assert OccursAt(WakeWords[0], "stewie", 4);
      ContainsIffOccurs(WakeWords[0], "stewie");
      ContainsTransitive(transcript, WakeWords[0], "stewie");
    }
    if Contains(transcript, WakeWords[2]) {
      assert OccursAt(WakeWords[2], "stewart", 4);
      ContainsIffOccurs(WakeWords[2], "stewart");
      ContainsTransitive(transcript, WakeWords[2], "stewart");
    }
  }

  /** Waking by name: any utterance with "stewie" in it wakes the terminal,
      "hey stewie" among them. */
  lemma {:induction false} NameWakes(pre: string, post: string)
    ensures MatchesAny(pre + "stewie" + post, WakeWords)
  {
    assert OccursAt("stewie", WakeWords[1], 0);
    ContainsIffOccurs("stewie", WakeWords[1]);
    ContainsInContext(pre, "stewie", post, WakeWords[1]);
    MatchesAnyIffSome(pre + "stewie" + post, WakeWords);
  }

  /** "quit" while active sends the terminal to sleep. */
  lemma QuitSleeps()
    ensures MatchesAny("quit", SleepWords)
  {
    assert OccursAt("quit", SleepWords[0], 0);
    ContainsIffOccurs("quit", SleepWords[0]);
    MatchesAnyIffSome("quit", SleepWords);
  }

  /** Matching is by substring, so a question that merely contains a sleep
      word is taken as a sleep command. */
  lemma SleepWordInsideQuestion()
    ensures MatchesAny("please exit the pod", SleepWords)
  {
    assert OccursAt("please exit the pod", SleepWords[1], 7);
    ContainsIffOccurs("please exit the pod", SleepWords[1]);
    MatchesAnyIffSome("please exit the pod", SleepWords);
  }

  /** A transcript without the name in it leaves the terminal asleep: every
      wake word has an 's' in it, which "good morning" does not. */
  lemma GreetingDoesNotWake()
    ensures !MatchesAny("good morning", WakeWords)
  {
    var s := "good morning";
    forall k | 0 <= k < |WakeWords| ensures !Contains(s, WakeWords[k]) {
      var w := WakeWords[k];
      assert w[if k % 2 == 0 then 4 else 0] == 's';
      forall i | 0 <= i && i + |w| <= |s| ensures !OccursAt(s, w, i) {
        assert 's' !in s;
      }
      ContainsIffOccurs(s, w);
    }
    MatchesAnyIffSome(s, WakeWords);
  }
}
