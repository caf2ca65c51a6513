/** The terminal's line list (app/page.tsx, `addLine` and the removal of the
    "Thinking" placeholder when an answer arrives). */
module TerminalLines {
  import opened Phrases

  /** The `type` argument of `addLine`, which picks the line's styling. */
  datatype LineKind = Normal | Prompt | Response | System | Error

  datatype Line = Line(text: string, kind: LineKind)

  /** What a prompt line shows before the user's words. */
  const PromptLabel: string := "you@stewie ~$ "

  /** The line `askQuestion` shows while the answer is awaited. */
  const ThinkingLine: Line := Line("⏳ Thinking...", System)

  /** The empty spacer line that follows most messages. */
  const Blank: Line := Line("", Normal)

  /** The lines the terminal shows before anything happens. */
  const InitialLines: seq<Line> := [
    Line("Stewie AI Terminal v2.0 - Enhanced Intelligence", System),
    Line("🧠 I'm actively monitoring your cluster and can speak multiple languages", System),
    Line("💡 Commands: \"set personality [mode]\" | \"analyze cluster\" | \"what do you think?\"", System),
    Line("🎤 Voice: Say \"Hey Stewie\" to wake | \"quit/exit\" to sleep", System),
    Line("\U{00A0}", Normal)
  ]

  /** The text a line displays: a prompt line shows its label, a space and
      the user's words; every other line shows its text alone. */
  function TextContent(line: Line): string
  {
    if line.kind == Prompt then PromptLabel + line.text else line.text
  }

  /** When an answer arrives, the last line is dropped if its text contains
      "Thinking"; otherwise the list is kept as it is. At most one line goes,
      always the last, and every line before it stays. */
  function DropThinkingPlaceholder(lines: seq<Line>): (r: seq<Line>)
    ensures |r| <= |lines| <= |r| + 1
    ensures r == lines[..|r|]
    ensures |r| < |lines| <==> lines != [] && Contains(TextContent(lines[|lines| - 1]), "Thinking")
  {
    if lines != [] && Contains(TextContent(lines[|lines| - 1]), "Thinking") then
      lines[..|lines| - 1]
    else
      lines
  }

  /** The placeholder a question shows is the line an answer arriving right
      after it removes: the list goes back to what it was before asking. */
  lemma PlaceholderRemoved(lines: seq<Line>)
    ensures DropThinkingPlaceholder(lines + [ThinkingLine]) == lines
  {
    assert OccursAt(ThinkingLine.text, "Thinking", 2);
    ContainsIffOccurs(ThinkingLine.text, "Thinking");
    assert (lines + [ThinkingLine])[..|lines|] == lines;
  }

  /** Text without a capital T cannot contain "Thinking". */
  lemma {:induction false} NoCapitalTNoThinking(s: string)
    requires forall i :: 0 <= i < |s| ==> s[i] != 'T'
    ensures !Contains(s, "Thinking")
  {
    forall i | 0 <= i && i + 8 <= |s| ensures !OccursAt(s, "Thinking", i) {
      assert s[i..i + 8][0] == s[i] != "Thinking"[0];
    }
    ContainsIffOccurs(s, "Thinking");
  }

  lemma PromptLabelHasNoCapitalT()
    ensures forall i :: 0 <= i < |PromptLabel| ==> PromptLabel[i] != 'T'
  {
  }

  /** A spoken question is lower-cased before it is shown, so if it ends up
      the last line when an answer arrives it is never taken for the
      placeholder and stays on screen. */
  lemma SpokenPromptKept(lines: seq<Line>, raw: string)
    ensures DropThinkingPlaceholder(lines + [Line(Normalize(raw), Prompt)]) ==
      lines + [Line(Normalize(raw), Prompt)]
  {
    var said := Normalize(raw);
    var shown := PromptLabel + said;
    ToLowerPointwise(Trim(raw));
    PromptLabelHasNoCapitalT();
    forall i | 0 <= i < |shown| ensures shown[i] != 'T' {
      if i >= |PromptLabel| {
        assert shown[i] == said[i - |PromptLabel|];
      }
    }
    NoCapitalTNoThinking(shown);
    assert TextContent(Line(said, Prompt)) == shown;
  }
}
