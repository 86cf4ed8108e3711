/** Printing a plan as directed lines, and compiling it back. */
module PlanPrinting {
  import opened Mentions
  import opened Text
  import opened WorkflowCompiler

  datatype Step = Step(agent: string, prompt: string)

  function Line(step: Step): string {
    "@" + step.agent + " " + step.prompt
  }

  function Print(plan: seq<Step>): string {
    if plan == [] then "" else if |plan| == 1 then Line(plan[0]) else Line(plan[0]) + "\n" + Print(plan[1..])
  }

  /** Lower-case, starts with a letter, short enough to be matched whole. */
  predicate PlainName(name: string) {
    && 0 < |name| <= MAX_NAME && IsLetter(name[0]) && Lower(name) == name
    && forall k | 0 <= k < |name| :: IsNameChar(name[k])
  }

  /** Trimmed, with no mention inside and no separator in front. */
  predicate PlainPrompt(prompt: string) {
    && prompt != "" && IsTrimmed(prompt) && !IsSeparator(prompt[0])
    && forall k: nat | k < |prompt| :: !IsMention(prompt, k)
  }

  predicate PlainStep(step: Step) {
    PlainName(step.agent) && PlainPrompt(step.prompt)
  }

  predicate PlainPlan(plan: seq<Step>) {
    forall k | 0 <= k < |plan| :: PlainStep(plan[k])
  }

  lemma NameIsPlain(c: char)
    requires 'a' <= c <= 'z'
    ensures IsLetter(c) && IsNameChar(c) && LowerChar(c) == c
  {
  }

  lemma KnownIsPlain(name: string)
    requires name in KNOWN_AGENTS
    ensures PlainName(name)
  {
    assert forall k | 0 <= k < |name| :: 'a' <= name[k] <= 'z';
    forall k | 0 <= k < |name| ensures IsLetter(name[k]) && IsNameChar(name[k]) && LowerChar(name[k]) == name[k] {
      NameIsPlain(name[k]);
    }
    assert Lower(name) == name;
  }

  /** The mentions of a plan printed from offset `off`. */
  function Expected(off: nat, plan: seq<Step>): (ms: seq<Match>)
    ensures |ms| == |plan|
    ensures plan != [] ==> ms[0].start == off
    decreases |plan|
  {
    if plan == [] then []
    else [Match(off, off + 1 + |plan[0].agent|)] + Expected(off + |Line(plan[0])| + 1, plan[1..])
  }

  lemma {:induction false} NameEndIs(s: string, i: nat, end: nat, room: nat)
    requires i <= end < |s| && end - i <= room && !IsNameChar(s[end])
    requires forall k | i <= k < end :: IsNameChar(s[k])
    ensures NameEnd(s, i, room) == end
    decreases end - i
  {
    if i < end {
      NameEndIs(s, i + 1, end, room - 1);
    }
  }

  /** Where the parts of the first line are. */
  ghost predicate FirstLine(s: string, off: nat, step: Step) {
    && off + |Line(step)| <= |s|
    && s[off] == '@' && s[off + 1..off + 1 + |step.agent|] == step.agent
    && s[off + 1 + |step.agent|] == ' '
    && s[off + 2 + |step.agent|..off + |Line(step)|] == step.prompt
    && (off + |Line(step)| < |s| ==> s[off + |Line(step)|] == '\n')
  }

  /** From `off` on, `s` is the printed plan. */
  ghost predicate Printed(s: string, off: nat, plan: seq<Step>) {
    plan != [] && off <= |s| && s[off..] == Print(plan)
  }

  /** What follows the first line. */
  function Tail(plan: seq<Step>): string {
    if |plan| <= 1 then "" else "\n" + Print(plan[1..])
  }

  lemma LineParts(s: string, off: nat, step: Step, tail: string)
    requires off <= |s| && s[off..] == Line(step) + tail && (tail == "" || tail[0] == '\n')
    ensures FirstLine(s, off, step) && |s| == off + |Line(step)| + |tail| && s[off + |Line(step)|..] == tail
  {
    var line := Line(step);
    var rest := s[off..];
    assert rest[..|line|] == line && rest[|line|..] == tail;
    assert s[off..off + |line|] == line && s[off + |line|..] == tail;
    assert s[off + 1..off + 1 + |step.agent|] == line[1..1 + |step.agent|] == step.agent;
    assert s[off + 2 + |step.agent|..off + |line|] == line[2 + |step.agent|..] == step.prompt;
    assert s[off] == line[0] && s[off + 1 + |step.agent|] == line[1 + |step.agent|];
    assert tail != "" ==> s[off + |line|] == tail[0];
  }

  lemma PrintedSplit(plan: seq<Step>)
    requires plan != []
    ensures Print(plan) == Line(plan[0]) + Tail(plan)
    ensures |plan| == 1 ==> Tail(plan) == ""
    ensures |plan| > 1 ==> |Tail(plan)| > 1 && Tail(plan)[0] == '\n' && Tail(plan)[1..] == Print(plan[1..])
  {
    hide Line;
    if |plan| > 1 {
      PrintIsNotEmpty(plan[1..]);
    } else {
      assert Line(plan[0]) + "" == Line(plan[0]);
    }
  }

  lemma PrintIsNotEmpty(plan: seq<Step>)
    requires plan != []
    ensures |Print(plan)| > 0
  {
  }

  lemma PrintedLine(s: string, off: nat, plan: seq<Step>)
    requires Printed(s, off, plan)
    ensures plan != [] && FirstLine(s, off, plan[0]) && off < |s|
    ensures |plan| == 1 ==> |s| == off + |Line(plan[0])|
    ensures |plan| > 1 ==> off + |Line(plan[0])| < |s| && Printed(s, off + |Line(plan[0])| + 1, plan[1..])
  {
    hide Line, FirstLine, Print, Tail;
    PrintedSplit(plan);
    PrintIsNotEmpty(plan);
    LineParts(s, off, plan[0], Tail(plan));
    if |plan| > 1 {
      assert s[off + |Line(plan[0])|..][1..] == s[off + |Line(plan[0])| + 1..];
    }
  }

  lemma MentionHere(s: string, off: nat, step: Step)
    requires FirstLine(s, off, step) && PlainStep(step)
    ensures IsMention(s, off) && MatchAt(s, off) == Match(off, off + 1 + |step.agent|)
  {
    var name := s[off + 1..off + 1 + |step.agent|];
    assert forall k | 0 <= k < |step.agent| :: s[off + 1 + k] == name[k];
    assert s[off + 1] == step.agent[0];
    forall k | off + 1 <= k < off + 1 + |step.agent| ensures IsNameChar(s[k]) {
      assert s[k] == step.agent[k - off - 1];
    }
    NameEndIs(s, off + 1, off + 1 + |step.agent|, MAX_NAME);
  }

  /** A character of the prompt, where it stands in the printed text. */
  lemma PromptChar(s: string, off: nat, step: Step, k: nat)
    requires FirstLine(s, off, step) && k < |step.prompt|
    ensures off + 2 + |step.agent| + k < |s| && s[off + 2 + |step.agent| + k] == step.prompt[k]
  {
    var at := off + 2 + |step.agent|;
    assert s[at..at + |step.prompt|] == step.prompt;
    assert s[at..at + |step.prompt|][k] == s[at + k];
  }

  lemma PromptHasNoMention(s: string, off: nat, step: Step, k: nat)
    requires FirstLine(s, off, step) && PlainStep(step) && k < |step.prompt|
    ensures !IsMention(s, off + 2 + |step.agent| + k)
  {
    assert !IsMention(step.prompt, k);
    PromptChar(s, off, step, k);
    if k + 1 < |step.prompt| {
      PromptChar(s, off, step, k + 1);
    }
  }

  lemma NoMentionInPrompt(s: string, off: nat, step: Step, next: nat)
    requires FirstLine(s, off, step) && PlainStep(step)
    requires next == if off + |Line(step)| < |s| then off + |Line(step)| + 1 else |s|
    ensures MatchesFrom(s, off + 1 + |step.agent|) == MatchesFrom(s, next)
  {
    hide MatchesFrom, PlainStep;
    var from, at := off + 1 + |step.agent|, off + 2 + |step.agent|;
    forall k: nat | from <= k < next ensures !IsMention(s, k) {
      if at <= k < at + |step.prompt| {
        PromptHasNoMention(s, off, step, k - at);
      }
    }
    NothingBetween(s, from, next);
  }

  /** The scanner finds exactly the agents of the printed lines. */
  lemma {:induction false} ScanPrinted(s: string, off: nat, plan: seq<Step>)
    requires Printed(s, off, plan) && PlainPlan(plan)
    ensures off <= |s| && MatchesFrom(s, off) == Expected(off, plan)
    decreases |plan|
  {
    hide *;
    PrintedLine(s, off, plan);
    var step := plan[0];
    PlainParts(plan);
    ExpectedIs(off, plan);
    MentionHere(s, off, step);
    MatchFirst(s, off);
    if |plan| == 1 {
      NoMentionInPrompt(s, off, step, |s|);
      MatchNone(s);
    } else {
      NoMentionInPrompt(s, off, step, off + |Line(step)| + 1);
      ScanPrinted(s, off + |Line(step)| + 1, plan[1..]);
    }
  }

  lemma PlainParts(plan: seq<Step>)
    requires plan != [] && PlainPlan(plan)
    ensures PlainStep(plan[0]) && PlainPlan(plan[1..])
  {
  }

  lemma ExpectedIs(off: nat, plan: seq<Step>)
    requires plan != []
    ensures Expected(off, plan) == [Match(off, off + 1 + |plan[0].agent|)] + Expected(off + |Line(plan[0])| + 1, plan[1..])
    ensures Expected(off + |Line(plan[0])| + 1, []) == []
  {
  }

  lemma MatchFirst(s: string, i: nat)
    requires i < |s| && IsMention(s, i)
    ensures MatchAt(s, i).end <= |s| && MatchesFrom(s, i) == [MatchAt(s, i)] + MatchesFrom(s, MatchAt(s, i).end)
  {
  }

  lemma MatchNone(s: string)
    ensures MatchesFrom(s, |s|) == []
  {
  }

  lemma TrimmedPrompt(prompt: string, tail: string)
    requires PlainPrompt(prompt) && (tail == "" || tail == "\n")
    ensures Prompt(" " + prompt + tail) == prompt
  {
    hide IsMention, IsSpace;
    assert IsSpace(' ') && IsSpace('\n') by { SpacesAreSpaces(); }
    var text := " " + prompt + tail;
    assert text[1..] == prompt + tail && (prompt + tail)[0] == prompt[0];
    assert TrimLeftSpace(text) == prompt + tail;
    if tail == "\n" {
      assert (prompt + tail)[..|prompt + tail| - 1] == prompt;
    } else {
      assert prompt + tail == prompt;
    }
    assert TrimRightSpace(prompt + tail) == prompt;
  }

  lemma SpacesAreSpaces()
    ensures IsSpace(' ') && IsSpace('\n')
  {
  }

  /** Stage `k` of the scanned text is line `k` of the plan. */
  lemma {:induction false} PrintedStage(s: string, off: nat, plan: seq<Step>, k: nat)
    requires Printed(s, off, plan) && PlainPlan(plan) && k < |plan|
    ensures var ms := Expected(off, plan);
            && ms[k].start < ms[k].end <= TextEnd(s, ms, k) <= |s|
            && NameOf(s, ms[k]) == plan[k].agent && Prompt(s[ms[k].end..TextEnd(s, ms, k)]) == plan[k].prompt
    decreases |plan|
  {
    hide *;
    PrintedLine(s, off, plan);
    var ms, step := Expected(off, plan), plan[0];
    PlainParts(plan);
    ExpectedIs(off, plan);
    var rest := Expected(off + |Line(step)| + 1, plan[1..]);
    TextEnds(s, ms, rest, k);
    if k == 0 {
      FirstStage(s, off, step);
    } else {
      PrintedStage(s, off + |Line(step)| + 1, plan[1..], k - 1);
    }
  }

  lemma TextEnds(s: string, ms: seq<Match>, rest: seq<Match>, k: nat)
    requires ms != [] && ms[1..] == rest && k < |ms|
    ensures k > 0 ==> TextEnd(s, ms, k) == TextEnd(s, rest, k - 1)
    ensures k == 0 ==> TextEnd(s, ms, k) == if rest == [] then |s| else rest[0].start
  {
  }

  lemma FirstStage(s: string, off: nat, step: Step)
    requires FirstLine(s, off, step) && PlainStep(step)
    ensures off + 1 + |step.agent| <= off + |Line(step)| <= |s|
    ensures NameOf(s, Match(off, off + 1 + |step.agent|)) == step.agent
    ensures off + |Line(step)| < |s| ==> Prompt(s[off + 1 + |step.agent|..off + |Line(step)| + 1]) == step.prompt
    ensures off + |Line(step)| == |s| ==> Prompt(s[off + 1 + |step.agent|..|s|]) == step.prompt
  {
    hide IsMention, IsNameChar, IsTrimmed, Prompt;
    TrimmedPrompt(step.prompt, "");
    TrimmedPrompt(step.prompt, "\n");
    LineTexts(s, off, step);
  }

  lemma LineTexts(s: string, off: nat, step: Step)
    requires FirstLine(s, off, step)
    ensures var from, end := off + 1 + |step.agent|, off + |Line(step)|;
            && s[from..end] == " " + step.prompt + ""
            && (end < |s| ==> s[from..end + 1] == " " + step.prompt + "\n")
  {
    var from, end := off + 1 + |step.agent|, off + |Line(step)|;
    assert s[from..end] == [s[from]] + s[from + 1..end];
    assert end < |s| ==> s[from..end + 1] == s[from..end] + [s[end]];
  }

  lemma {:induction false} PrintIsTrimmed(plan: seq<Step>)
    requires plan != [] && PlainPlan(plan)
    ensures Print(plan) != "" && IsTrimmed(Print(plan))
    decreases |plan|
  {
    assert PlainStep(plan[0]);
    assert Print(plan)[0] == '@' && !IsSpace('@');
    if |plan| == 1 {
      assert Print(plan)[|Print(plan)| - 1] == plan[0].prompt[|plan[0].prompt| - 1];
    } else {
      PrintIsTrimmed(plan[1..]);
      assert Print(plan)[|Print(plan)| - 1] == Print(plan[1..])[|Print(plan[1..])| - 1];
    }
  }

  /**
    Compiling a printed plan gives the plan back: the same agents and prompts in the same order,
    numbered from zero.
  */
  lemma {:induction false} PrintedPlanCompiles(plan: seq<Step>, agents: seq<Agent>)
    requires 0 < |plan| <= MAX_STAGES && Utf8Length(Print(plan)) <= MAX_REQUEST_BYTES
    requires forall k | 0 <= k < |plan| :: Refusal(agents, plan[k].agent).None? && PlainPrompt(plan[k].prompt)
    ensures Compiled(Print(plan), agents).Ok? && |Compiled(Print(plan), agents).value| == |plan|
    ensures forall k | 0 <= k < |plan| :: Compiled(Print(plan), agents).value[k] == Stage(k, plan[k].agent, plan[k].prompt)
  {
    hide *;
    var s, ms := Print(plan), Expected(0, plan);
    StepsArePlain(plan, agents);
    PrintedWhole(plan);
    PrintIsTrimmed(plan);
    MatchesIs(s);
    TrimSpaceFixed(s);
    ScanPrinted(s, 0, plan);
    MatchesArePlaced(s);
    forall k | 0 <= k < |plan|
      ensures WellPlaced(s, ms) && StageAt(s, ms, k) == Stage(k, plan[k].agent, plan[k].prompt)
      ensures Refusal(agents, NameOf(s, ms[k])).None?
    {
      PrintedStage(s, 0, plan, k);
      StageIs(s, ms, k);
    }
    StagesAre(s, ms, |ms|, agents);
    CompilesTo(s, ms, agents);
  }

  lemma StepsArePlain(plan: seq<Step>, agents: seq<Agent>)
    requires forall k | 0 <= k < |plan| :: Refusal(agents, plan[k].agent).None? && PlainPrompt(plan[k].prompt)
    ensures PlainPlan(plan)
  {
    hide PlainPrompt, PlainName, Installed, Ready;
    forall k | 0 <= k < |plan| ensures PlainStep(plan[k]) {
      KnownIsPlain(plan[k].agent);
    }
  }

  lemma PrintedWhole(plan: seq<Step>)
    requires plan != []
    ensures Printed(Print(plan), 0, plan)
  {
    assert Print(plan)[0..] == Print(plan);
  }

  lemma StageIs(s: string, ms: seq<Match>, k: nat)
    requires WellPlaced(s, ms) && k < |ms|
    ensures ms[k].start < ms[k].end <= TextEnd(s, ms, k) <= |s|
    ensures StageAt(s, ms, k) == Stage(k, NameOf(s, ms[k]), Prompt(s[ms[k].end..TextEnd(s, ms, k)]))
  {
  }

  lemma MatchesIs(s: string)
    ensures Matches(s) == MatchesFrom(s, 0)
  {
  }

  lemma CompilesTo(s: string, ms: seq<Match>, agents: seq<Agent>)
    requires s != "" && TrimSpace(s) == s && Utf8Length(s) <= MAX_REQUEST_BYTES && Matches(s) == ms && 0 < |ms| <= MAX_STAGES
    requires WellPlaced(s, ms)
    ensures Compiled(s, agents) == Stages(s, ms, |ms|, agents)
  {
    hide Stages, WellPlaced, Matches, TrimSpace, Utf8Length;
  }
}
