/** Compiling a workflow request into directed stages (coordinator/compiler.go). */
module WorkflowCompiler {
  import opened Mentions
  import opened Text
  import opened Wrappers

  const MAX_REQUEST_BYTES := 48 * 1024
  const MAX_STAGES := 8
  const DEFAULT_PROMPT := "Continue the requested workflow and report the result."
  const KNOWN_AGENTS := ["codex", "claude", "opencode", "gemini", "aider"]

  datatype Agent = Agent(id: string, available: bool, runnable: bool, needsLogin: bool)

  /** A queued stage; ids and titles are left out. */
  datatype Stage = Stage(position: nat, agent: string, prompt: string)

  datatype Error = RequestRequired | RequestTooLarge | TooManyStages | UnknownAgent(name: string) | NotEnabled(name: string)
    | NotReady(name: string) | NoAgent

  datatype Result<T> = Ok(value: T) | Err(error: Error)

  // ---- names and agents ------------------------------------------------------------------------

  function LowerChar(c: char): char {
    if 'A' <= c <= 'Z' then (c as int + 32) as char else if c as int == 0x212a then 'k' else c
  }

  /** `strings.ToLower`, on the characters a mention can hold. */
  function Lower(s: string): string {
    seq(|s|, k requires 0 <= k < |s| => LowerChar(s[k]))
  }

  /** The last available agent under a name: later entries replace earlier ones. */
  function Installed(agents: seq<Agent>, name: string): Option<Agent> {
    if agents == [] then None
    else
      var last := agents[|agents| - 1];
      if last.available && Lower(last.id) == name then Some(last) else Installed(agents[..|agents| - 1], name)
  }

  predicate CanRun(agent: Agent) {
    agent.available && agent.runnable && !agent.needsLogin
  }

  predicate Ready(agents: seq<Agent>, name: string) {
    exists k :: 0 <= k < |agents| && CanRun(agents[k]) && Lower(agents[k].id) == name
  }

  function Refusal(agents: seq<Agent>, name: string): Option<Error> {
    if name !in KNOWN_AGENTS then Some(UnknownAgent(name))
    else if Installed(agents, name).Some? && !Installed(agents, name).value.runnable then Some(NotEnabled(name))
    else if !Ready(agents, name) then Some(NotReady(name))
    else None
  }

  // ---- prompts ---------------------------------------------------------------------------------

  /** The cutset " ,:;-\n\t" */
  predicate IsSeparator(c: char) {
    c == ' ' || c == ',' || c == ':' || c == ';' || c == '-' || c == '\n' || c == '\t'
  }

  function TrimSeparators(s: string): string {
    if s != "" && IsSeparator(s[0]) then TrimSeparators(s[1..]) else s
  }

  function Prompt(text: string): string {
    var prompt := TrimSeparators(TrimSpace(text));
    if prompt == "" then DEFAULT_PROMPT else prompt
  }

  function NameOf(s: string, m: Match): string
    requires m.start < m.end <= |s|
  {
    Lower(s[m.start + 1..m.end])
  }

  function TextEnd(s: string, ms: seq<Match>, k: nat): nat {
    if k + 1 < |ms| then ms[k + 1].start else |s|
  }

  /** Matches in order inside `s`, as the scanner yields them. */
  predicate WellPlaced(s: string, ms: seq<Match>) {
    forall k | 0 <= k < |ms| :: ms[k].start < ms[k].end <= TextEnd(s, ms, k) <= |s|
  }

  function StageAt(s: string, ms: seq<Match>, k: nat): Stage
    requires WellPlaced(s, ms) && k < |ms|
  {
    Stage(k, NameOf(s, ms[k]), Prompt(s[ms[k].end..TextEnd(s, ms, k)]))
  }

  /** The first `n` stages, or the first refusal among them. */
  function Stages(s: string, ms: seq<Match>, n: nat, agents: seq<Agent>): Result<seq<Stage>>
    requires WellPlaced(s, ms) && n <= |ms|
  {
    if n == 0 then Ok([])
    else
      match Stages(s, ms, n - 1, agents)
      case Err(e) => Err(e)
      case Ok(stages) =>
        match Refusal(agents, NameOf(s, ms[n - 1]))
        case Some(e) => Err(e)
        case None => Ok(stages + [StageAt(s, ms, n - 1)])
  }

  /** The first known agent that is ready, in the order of preference. */
  function FirstReady(agents: seq<Agent>, from: nat): Option<string>
    requires from <= |KNOWN_AGENTS|
    decreases |KNOWN_AGENTS| - from
  {
    if from == |KNOWN_AGENTS| then None
    else if Ready(agents, KNOWN_AGENTS[from]) then Some(KNOWN_AGENTS[from])
    else FirstReady(agents, from + 1)
  }

  function Undirected(request: string, agents: seq<Agent>): Result<seq<Stage>> {
    match FirstReady(agents, 0)
    case None => Err(NoAgent)
    case Some(name) => Ok([Stage(0, name, request)])
  }

  lemma MatchesArePlaced(s: string)
    ensures WellPlaced(s, Matches(s))
  {
    MatchesAreAllMentions(s, 0);
    var ms := Matches(s);
    assert forall k | 0 <= k < |ms| :: ms[k] == MatchAt(s, ms[k].start);
  }

  function Compiled(input: string, agents: seq<Agent>): Result<seq<Stage>> {
    var request := TrimSpace(input);
    if request == "" then Err(RequestRequired)
    else if Utf8Length(request) > MAX_REQUEST_BYTES then Err(RequestTooLarge)
    else
      var ms := Matches(request);
      if |ms| > MAX_STAGES then Err(TooManyStages)
      else if ms == [] then Undirected(request, agents)
      else
        MatchesArePlaced(request);
        Stages(request, ms, |ms|, agents)
  }

  // ---- the loops -------------------------------------------------------------------------------

  method Index(agents: seq<Agent>) returns (installed: map<string, Agent>, available: map<string, Agent>)
    ensures forall name: string :: if name in installed then Installed(agents, name) == Some(installed[name]) else Installed(agents, name) == None
    ensures forall name: string :: name in available <==> Ready(agents, name)
  {
    installed, available := map[], map[];
    for k := 0 to |agents|
      invariant forall name: string ::
                  if name in installed then Installed(agents[..k], name) == Some(installed[name]) else Installed(agents[..k], name) == None
      invariant forall name: string :: name in available <==> Ready(agents[..k], name)
    {
      var agent := agents[k];
      assert agents[..k + 1][..k] == agents[..k];
      ReadyPush(agents, k);
      if agent.available {
        installed := installed[Lower(agent.id) := agent];
      }
      if CanRun(agent) {
        available := available[Lower(agent.id) := agent];
      }
    }
    assert agents[..|agents|] == agents;
  }

  lemma ReadyPush(agents: seq<Agent>, k: nat)
    requires k < |agents|
    ensures forall name: string :: Ready(agents[..k + 1], name) <==> Ready(agents[..k], name) || (CanRun(agents[k]) && Lower(agents[k].id) == name)
  {
    forall name: string ensures Ready(agents[..k + 1], name) <==> Ready(agents[..k], name) || (CanRun(agents[k]) && Lower(agents[k].id) == name) {
      if Ready(agents[..k], name) {
        var j :| 0 <= j < k && CanRun(agents[..k][j]) && Lower(agents[..k][j].id) == name;
        assert CanRun(agents[..k + 1][j]) && Lower(agents[..k + 1][j].id) == name;
      }
      if Ready(agents[..k + 1], name) {
        var j :| 0 <= j < k + 1 && CanRun(agents[..k + 1][j]) && Lower(agents[..k + 1][j].id) == name;
        assert j < k ==> CanRun(agents[..k][j]) && Lower(agents[..k][j].id) == name;
      }
      assert CanRun(agents[k]) && Lower(agents[k].id) == name ==> CanRun(agents[..k + 1][k]) && Lower(agents[..k + 1][k].id) == name;
    }
  }

  /** `Compile` */
  method Compile(input: string, agents: seq<Agent>) returns (r: Result<seq<Stage>>)
    ensures r == Compiled(input, agents)
  {
    hide Prompt, Installed, Ready, Lower, Matches, TrimSpace, Utf8Length;
    var request := TrimSpace(input);
    if request == "" {
      return Err(RequestRequired);
    }
    if Utf8Length(request) > MAX_REQUEST_BYTES {
      return Err(RequestTooLarge);
    }
    var installed, available := Index(agents);
    var matches := Matches(request);
    if |matches| > MAX_STAGES {
      return Err(TooManyStages);
    }
    MatchesArePlaced(request);
    var stages := [];
    var index := 0;
    while index < |matches|
      invariant index <= |matches| && |stages| == index
      invariant Stages(request, matches, index, agents) == Ok(stages)
    {
      var m := matches[index];
      var agentID := Lower(request[m.start + 1..m.end]);
      assert agentID == NameOf(request, m);
      var problem: Option<Error> := None;
      if agentID !in KNOWN_AGENTS {
        problem := Some(UnknownAgent(agentID));
      } else if agentID in installed && !installed[agentID].runnable {
        problem := Some(NotEnabled(agentID));
      } else if agentID !in available {
        problem := Some(NotReady(agentID));
      }
      assert problem == Refusal(agents, agentID);
      if problem.Some? {
        RefusedStays(request, matches, index + 1, |matches|, agents);
        return Err(problem.value);
      }
      var end := |request|;
      if index + 1 < |matches| {
        end := matches[index + 1].start;
      }
      stages := stages + [Stage(|stages|, agentID, Prompt(request[m.end..end]))];
      index := index + 1;
    }
    if stages == [] {
      var agentID := FirstReady(agents, 0);
      if agentID.None? {
        return Err(NoAgent);
      }
      stages := [Stage(0, agentID.value, request)];
    }
    r := Ok(stages);
  }

  lemma {:induction false} RefusedStays(s: string, ms: seq<Match>, n: nat, m: nat, agents: seq<Agent>)
    requires WellPlaced(s, ms) && n <= m <= |ms| && Stages(s, ms, n, agents).Err?
    ensures Stages(s, ms, m, agents) == Stages(s, ms, n, agents)
    decreases m
  {
    hide Refusal, NameOf, StageAt, WellPlaced;
    if n < m {
      RefusedStays(s, ms, n, m - 1, agents);
    }
  }

  // ---- what the stages are ---------------------------------------------------------------------

  lemma {:induction false} StagesAre(s: string, ms: seq<Match>, n: nat, agents: seq<Agent>)
    requires WellPlaced(s, ms) && n <= |ms|
    ensures Stages(s, ms, n, agents).Ok? <==> forall k | 0 <= k < n :: Refusal(agents, NameOf(s, ms[k])).None?
    ensures Stages(s, ms, n, agents).Ok? ==>
              && |Stages(s, ms, n, agents).value| == n
              && forall k | 0 <= k < n :: Stages(s, ms, n, agents).value[k] == StageAt(s, ms, k)
  {
    hide Refusal, NameOf, StageAt;
    if n > 0 {
      StagesAre(s, ms, n - 1, agents);
    }
  }

  /** From `from` to `l` there are only spaces and from there to `a` only separators, and neither goes on. */
  ghost predicate LeadingOff(s: string, from: nat, l: nat, a: nat, b: nat) {
    && from <= l <= a <= b <= |s|
    && (forall k | from <= k < l :: IsSpace(s[k])) && (l < b ==> !IsSpace(s[l]))
    && (forall k | l <= k < a :: IsSeparator(s[k])) && (a < b ==> !IsSeparator(s[a]))
  }

  /**
    `prompt` is the text of `s` from `a` to `b`, and the most of it that can be: before it all leading
    spaces and then all leading separators are left off, behind it all trailing spaces.
  */
  ghost predicate IsSlice(s: string, from: nat, end: nat, prompt: string, a: nat, b: nat) {
    && from <= a <= b <= end <= |s| && prompt == s[a..b]
    && (exists l: nat :: LeadingOff(s, from, l, a, b))
    && (forall k | b <= k < end :: IsSpace(s[k])) && (a < b ==> !IsSpace(s[b - 1]))
  }

  /** A prompt is a slice of its text, or the text held nothing but separators and spaces. */
  lemma PromptIsSlice(s: string, from: nat, end: nat) returns (a: nat, b: nat)
    requires from <= end <= |s|
    ensures IsSlice(s, from, end, TrimSeparators(TrimSpace(s[from..end])), a, b)
  {
    hide *;
    var text := s[from..end];
    assert |text| == end - from;
    var left := TrimLeftSpace(text);
    var trimmed := TrimSpace(text);
    var prompt := TrimSeparators(trimmed);
    TrimSpaceIs(text);
    SeparatorsGo(trimmed);
    SliceOf(s, from, end, left, trimmed, prompt);
    a, b := end - |left| + |trimmed| - |prompt|, end - |left| + |trimmed|;
  }

  /** `prompt` ends `trimmed`; what is left off are all its leading separators. */
  ghost predicate IsPromptOf(trimmed: string, prompt: string) {
    && |prompt| <= |trimmed| && prompt == trimmed[|trimmed| - |prompt|..] && (prompt == "" || !IsSeparator(prompt[0]))
    && forall k | 0 <= k < |trimmed| - |prompt| :: IsSeparator(trimmed[k])
  }

  lemma {:induction false} SeparatorsGo(s: string)
    ensures IsPromptOf(s, TrimSeparators(s))
  {
    hide IsSeparator;
    if s != "" && IsSeparator(s[0]) {
      SeparatorsGo(s[1..]);
      OneMoreSeparator(s, TrimSeparators(s[1..]));
    }
  }

  lemma OneMoreSeparator(s: string, r: string)
    requires s != "" && IsSeparator(s[0]) && IsPromptOf(s[1..], r)
    ensures IsPromptOf(s, r)
  {
    hide IsSeparator;
    forall k | 0 <= k < |s| - |r| ensures IsSeparator(s[k]) {
      if k > 0 {
        assert s[k] == s[1..][k - 1];
      }
    }
  }

  lemma SubSlice(s: string, a: nat, b: nat, i: nat, j: nat)
    requires a <= b <= |s| && i <= j <= b - a
    ensures s[a..b][i..j] == s[a + i..a + j]
  {
    var x, y := s[a..b][i..j], s[a + i..a + j];
    assert |x| == |y|;
    assert forall k | 0 <= k < |x| :: x[k] == y[k];
    assert x == y;
  }

  /** Where the parts of a text stand in `s`. */
  lemma PartsOf(s: string, from: nat, end: nat, left: string, trimmed: string, prompt: string)
    requires from <= end <= |s| && |prompt| <= |trimmed| <= |left| <= end - from
    requires left == s[from..end][end - from - |left|..end - from]
    requires trimmed == left[0..|trimmed|] && prompt == trimmed[|trimmed| - |prompt|..|trimmed|]
    ensures var l := end - |left|;
            left == s[l..end] && trimmed == s[l..l + |trimmed|] && prompt == s[l + |trimmed| - |prompt|..l + |trimmed|]
  {
    var l := end - |left|;
    SubSlice(s, from, end, end - from - |left|, end - from);
    SubSlice(s, l, end, 0, |trimmed|);
    SubSlice(s, l, l + |trimmed|, |trimmed| - |prompt|, |trimmed|);
  }

  lemma PartsSlice(text: string, left: string, trimmed: string, prompt: string)
    requires EndsAfterSpaces(text, left) && StartsBeforeSpaces(left, trimmed) && IsPromptOf(trimmed, prompt)
    ensures |prompt| <= |trimmed| <= |left| <= |text|
    ensures left == text[|text| - |left|..|text|] && trimmed == left[0..|trimmed|] && prompt == trimmed[|trimmed| - |prompt|..|trimmed|]
  {
    hide IsSpace, IsSeparator;
  }

  lemma LeadingParts(s: string, from: nat, end: nat, left: string, trimmed: string, prompt: string)
    requires from <= end <= |s| && |prompt| <= |trimmed| <= |left| <= end - from
    requires EndsAfterSpaces(s[from..end], left) && IsPromptOf(trimmed, prompt) && IsTrimmed(trimmed)
    requires trimmed == s[end - |left|..end - |left| + |trimmed|]
    ensures var l := end - |left|;
            LeadingOff(s, from, l, l + |trimmed| - |prompt|, l + |trimmed|)
  {
    hide IsSpace, IsSeparator;
    var l := end - |left|;
    forall k | from <= k < l ensures IsSpace(s[k]) {
      assert s[k] == s[from..end][k - from];
    }
    forall k | l <= k < l + |trimmed| - |prompt| ensures IsSeparator(s[k]) {
      assert s[k] == trimmed[k - l];
    }
    assert trimmed != "" ==> s[l] == trimmed[0];
    assert prompt != "" ==> s[l + |trimmed| - |prompt|] == trimmed[|trimmed| - |prompt|] == prompt[0];
  }

  lemma TrailingParts(s: string, end: nat, left: string, trimmed: string)
    requires |trimmed| <= |left| <= end <= |s| && StartsBeforeSpaces(left, trimmed) && IsTrimmed(trimmed)
    requires left == s[end - |left|..end] && trimmed == s[end - |left|..end - |left| + |trimmed|]
    ensures var b := end - |left| + |trimmed|;
            && (forall k | b <= k < end :: IsSpace(s[k])) && (trimmed != "" ==> !IsSpace(s[b - 1]))
  {
    hide IsSpace;
    var l := end - |left|;
    forall k | l + |trimmed| <= k < end ensures IsSpace(s[k]) {
      assert s[k] == left[k - l];
    }
    assert trimmed != "" ==> s[l + |trimmed| - 1] == trimmed[|trimmed| - 1];
  }

  lemma SliceFrom(s: string, from: nat, l: nat, end: nat, prompt: string, a: nat, b: nat)
    requires from <= a <= b <= end <= |s| && prompt == s[a..b] && LeadingOff(s, from, l, a, b)
    requires (forall k | b <= k < end :: IsSpace(s[k])) && (a < b ==> !IsSpace(s[b - 1]))
    ensures IsSlice(s, from, end, prompt, a, b)
  {
    hide IsSpace, LeadingOff;
  }

  /** The end of a text, then a start of that, then an end of that. */
  lemma SliceOf(s: string, from: nat, end: nat, left: string, trimmed: string, prompt: string)
    requires from <= end <= |s|
    requires EndsAfterSpaces(s[from..end], left) && StartsBeforeSpaces(left, trimmed) && IsPromptOf(trimmed, prompt) && IsTrimmed(trimmed)
    ensures |prompt| <= |trimmed| <= |left| <= end - from
    ensures IsSlice(s, from, end, prompt, end - |left| + |trimmed| - |prompt|, end - |left| + |trimmed|)
  {
    hide *;
    PartsSlice(s[from..end], left, trimmed, prompt);
    assert |s[from..end]| == end - from;
    PartsOf(s, from, end, left, trimmed, prompt);
    LeadingParts(s, from, end, left, trimmed, prompt);
    TrailingParts(s, end, left, trimmed);
    var l := end - |left|;
    SliceFrom(s, from, l, end, prompt, l + |trimmed| - |prompt|, l + |trimmed|);
  }

  /** Stage `k` of `stages`, for mention `k` of `s`. */
  ghost predicate StageFollows(s: string, ms: seq<Match>, stages: seq<Stage>, agents: seq<Agent>, k: nat, a: nat, b: nat)
    requires WellPlaced(s, ms) && k < |ms|
  {
    && k < |stages| && stages[k].position == k && stages[k].agent == NameOf(s, ms[k])
    && stages[k].agent in KNOWN_AGENTS && Ready(agents, stages[k].agent)
    && a <= b <= |s| && IsSlice(s, ms[k].end, TextEnd(s, ms, k), s[a..b], a, b)
    && stages[k].prompt == if a == b then DEFAULT_PROMPT else s[a..b]
  }

  lemma StageIsForMention(s: string, ms: seq<Match>, agents: seq<Agent>, k: nat) returns (a: nat, b: nat)
    requires WellPlaced(s, ms) && k < |ms| && Stages(s, ms, |ms|, agents).Ok?
    ensures StageFollows(s, ms, Stages(s, ms, |ms|, agents).value, agents, k, a, b)
  {
    hide Stages, Ready, Installed, NameOf, Prompt, IsSlice, TrimSpace;
    StagesAre(s, ms, |ms|, agents);
    a, b := PromptIsSlice(s, ms[k].end, TextEnd(s, ms, k));
    SliceBounds(s, ms[k].end, TextEnd(s, ms, k), a, b);
    PromptIs(s, ms[k].end, TextEnd(s, ms, k), a, b);
    RefusalNone(agents, NameOf(s, ms[k]));
  }

  lemma SliceBounds(s: string, from: nat, end: nat, a: nat, b: nat)
    requires from <= end <= |s| && IsSlice(s, from, end, TrimSeparators(TrimSpace(s[from..end])), a, b)
    ensures a <= b <= |s| && IsSlice(s, from, end, s[a..b], a, b)
  {
  }

  lemma PromptIs(s: string, from: nat, end: nat, a: nat, b: nat)
    requires from <= end <= |s| && IsSlice(s, from, end, TrimSeparators(TrimSpace(s[from..end])), a, b)
    ensures a <= b <= |s| && Prompt(s[from..end]) == if a == b then DEFAULT_PROMPT else s[a..b]
  {
    hide TrimSpace, TrimSeparators;
  }

  lemma RefusalNone(agents: seq<Agent>, name: string)
    ensures Refusal(agents, name).None? ==> name in KNOWN_AGENTS && Ready(agents, name)
  {
  }

  lemma CompiledIs(input: string, agents: seq<Agent>)
    ensures WellPlaced(TrimSpace(input), Matches(TrimSpace(input)))
    ensures Compiled(input, agents).Ok? && Matches(TrimSpace(input)) != [] ==>
              && |Matches(TrimSpace(input))| <= MAX_STAGES
              && Compiled(input, agents) == Stages(TrimSpace(input), Matches(TrimSpace(input)), |Matches(TrimSpace(input))|, agents)
  {
    MatchesArePlaced(TrimSpace(input));
    hide Stages, WellPlaced, Matches, TrimSpace, Utf8Length;
  }

  /**
    A compiled request with mentions has one stage per mention, in order, numbered from zero; each
    runs an agent that is known and ready, with the text up to the next mention as its prompt (less the
    spaces around it and then the separators in front), or with the default text when there is none.
  */
  lemma StagesFollowMentions(input: string, agents: seq<Agent>, k: nat) returns (a: nat, b: nat)
    requires Compiled(input, agents).Ok? && k < |Matches(TrimSpace(input))|
    ensures var s, ms, stages := TrimSpace(input), Matches(TrimSpace(input)), Compiled(input, agents).value;
            WellPlaced(s, ms) && |stages| == |ms| <= MAX_STAGES && StageFollows(s, ms, stages, agents, k, a, b)
  {
    hide Compiled, Stages, Matches, TrimSpace, StageFollows, WellPlaced, Refusal;
    var s := TrimSpace(input);
    CompiledIs(input, agents);
    StagesAre(s, Matches(s), |Matches(s)|, agents);
    a, b := StageIsForMention(s, Matches(s), agents, k);
  }

  // ---- requests without a mention, and refusals --------------------------------------------------

  ghost predicate NothingMentioned(s: string) {
    forall i: nat | i < |s| :: !IsMention(s, i)
  }

  lemma NoMatchesIff(s: string)
    ensures Matches(s) == [] <==> NothingMentioned(s)
  {
    MatchesAreAllMentions(s, 0);
    if Matches(s) != [] {
      assert IsMention(s, Matches(s)[0].start);
    }
    if i: nat :| i < |s| && IsMention(s, i) {
      assert IsStart(Matches(s), i);
    }
  }

  /** `name` is the first of the known agents, in their order of preference, that is ready. */
  ghost predicate IsPreferred(agents: seq<Agent>, name: string) {
    exists k :: 0 <= k < |KNOWN_AGENTS| && KNOWN_AGENTS[k] == name && Ready(agents, name)
                && forall j | 0 <= j < k :: !Ready(agents, KNOWN_AGENTS[j])
  }

  lemma {:induction false} FirstReadyIs(agents: seq<Agent>, from: nat)
    requires from <= |KNOWN_AGENTS| && forall j | 0 <= j < from :: !Ready(agents, KNOWN_AGENTS[j])
    ensures FirstReady(agents, from).Some? ==> IsPreferred(agents, FirstReady(agents, from).value)
    ensures FirstReady(agents, from).None? <==> forall j | 0 <= j < |KNOWN_AGENTS| :: !Ready(agents, KNOWN_AGENTS[j])
    decreases |KNOWN_AGENTS| - from
  {
    hide Ready, KNOWN_AGENTS;
    if from < |KNOWN_AGENTS| && !Ready(agents, KNOWN_AGENTS[from]) {
      FirstReadyIs(agents, from + 1);
    }
  }

  /** The sizes a request may have. */
  predicate Fits(request: string) {
    request != "" && Utf8Length(request) <= MAX_REQUEST_BYTES
  }

  /**
    A request that mentions nobody becomes one stage: the trimmed request itself for the preferred agent
    among those that are ready; it is refused exactly if none is.
  */
  lemma UndirectedIs(input: string, agents: seq<Agent>)
    requires Fits(TrimSpace(input)) && NothingMentioned(TrimSpace(input))
    ensures var r := Compiled(input, agents);
            && (r.Ok? <==> exists k :: 0 <= k < |KNOWN_AGENTS| && Ready(agents, KNOWN_AGENTS[k]))
            && (r.Ok? ==> |r.value| == 1 && r.value[0].position == 0 && r.value[0].prompt == TrimSpace(input) && IsPreferred(agents, r.value[0].agent))
            && (r.Err? ==> r.error == NoAgent)
  {
    NoMatchesIff(TrimSpace(input));
    FirstReadyIs(agents, 0);
    hide Matches, TrimSpace, Ready, IsPreferred, KNOWN_AGENTS, FirstReady, Utf8Length;
  }

  /** The first mention that is refused, with why. */
  ghost predicate FirstRefused(agents: seq<Agent>, s: string, ms: seq<Match>, k: nat)
    requires WellPlaced(s, ms)
  {
    k < |ms| && Refusal(agents, NameOf(s, ms[k])).Some? && forall j | 0 <= j < k :: Refusal(agents, NameOf(s, ms[j])).None?
  }

  lemma StagesStep(s: string, ms: seq<Match>, n: nat, agents: seq<Agent>)
    requires WellPlaced(s, ms) && 0 < n <= |ms|
    ensures var before, refusal := Stages(s, ms, n - 1, agents), Refusal(agents, NameOf(s, ms[n - 1]));
            && (before.Err? ==> Stages(s, ms, n, agents) == before)
            && (before.Ok? && refusal.Some? ==> Stages(s, ms, n, agents) == Err(refusal.value))
            && (before.Ok? && refusal.None? ==> Stages(s, ms, n, agents).Ok?)
  {
    hide Refusal, NameOf, StageAt;
  }

  /** A compilation that fails at a mention fails at the first that is refused. */
  lemma {:induction false} RefusedFirst(s: string, ms: seq<Match>, n: nat, agents: seq<Agent>) returns (k: nat)
    requires WellPlaced(s, ms) && n <= |ms| && Stages(s, ms, n, agents).Err?
    ensures k < n && FirstRefused(agents, s, ms, k) && Refusal(agents, NameOf(s, ms[k])) == Some(Stages(s, ms, n, agents).error)
  {
    hide *;
    NothingIsOk(s, ms, agents);
    if Stages(s, ms, n - 1, agents).Ok? {
      k := n - 1;
      LastRefused(s, ms, n, agents);
    } else {
      StagesStep(s, ms, n, agents);
      k := RefusedFirst(s, ms, n - 1, agents);
    }
  }

  lemma LastRefused(s: string, ms: seq<Match>, n: nat, agents: seq<Agent>)
    requires WellPlaced(s, ms) && 0 < n <= |ms| && Stages(s, ms, n - 1, agents).Ok? && Stages(s, ms, n, agents).Err?
    ensures FirstRefused(agents, s, ms, n - 1)
    ensures Refusal(agents, NameOf(s, ms[n - 1])) == Some(Stages(s, ms, n, agents).error)
  {
    hide Refusal, NameOf, Stages, WellPlaced;
    StagesStep(s, ms, n, agents);
    StagesAre(s, ms, n - 1, agents);
  }

  lemma NothingIsOk(s: string, ms: seq<Match>, agents: seq<Agent>)
    requires WellPlaced(s, ms)
    ensures Stages(s, ms, 0, agents).Ok?
  {
  }

  /** The same letter but for its case; the Kelvin sign is a capital k. */
  predicate SameLetter(c: char, small: char) {
    c == small || (c as int + 32 == small as int && 'a' <= small <= 'z') || (c as int == 0x212a && small == 'k')
  }

  /** A mention names a known agent iff it spells its id, in whatever case. */
  lemma NameIgnoresCase(s: string, m: Match, name: string)
    requires m.start < m.end <= |s| && name in KNOWN_AGENTS
    ensures NameOf(s, m) == name <==>
            |name| == m.end - m.start - 1 && forall k | 0 <= k < |name| :: SameLetter(s[m.start + 1 + k], name[k])
  {
    KnownIsSmall(name);
    var text := s[m.start + 1..m.end];
    hide KNOWN_AGENTS, SameLetter;
    forall k | 0 <= k < |text| && k < |name| ensures LowerChar(text[k]) == name[k] <==> SameLetter(text[k], name[k]) {
      LowerCharIs(text[k], name[k]);
    }
    hide LowerChar;
    assert NameOf(s, m) == Lower(text) && |Lower(text)| == |text|;
    assert forall k | 0 <= k < |text| :: Lower(text)[k] == LowerChar(text[k]) && text[k] == s[m.start + 1 + k];
    if |name| == |text| && forall k | 0 <= k < |name| :: SameLetter(s[m.start + 1 + k], name[k]) {
      assert Lower(text) == name;
    }
  }

  lemma LowerCharIs(c: char, small: char)
    requires 'a' <= small <= 'z'
    ensures LowerChar(c) == small <==> SameLetter(c, small)
  {
  }

  lemma KnownIsSmall(name: string)
    requires name in KNOWN_AGENTS
    ensures forall k | 0 <= k < |name| :: 'a' <= name[k] <= 'z'
  {
  }

  /** Why an agent is refused: unknown, installed but without an adapter, or not installed or not logged in. */
  lemma RefusalIs(agents: seq<Agent>, name: string)
    ensures Refusal(agents, name) == Some(UnknownAgent(name)) <==> name !in KNOWN_AGENTS
    ensures Refusal(agents, name) == Some(NotEnabled(name)) <==>
            name in KNOWN_AGENTS && exists k :: LastInstalled(agents, name, k) && !agents[k].runnable
    ensures Refusal(agents, name).None? <==>
            name in KNOWN_AGENTS && (exists k :: LoggedIn(agents, name, k)) && !(exists k :: LastInstalled(agents, name, k) && !agents[k].runnable)
    ensures Refusal(agents, name) in {None, Some(UnknownAgent(name)), Some(NotEnabled(name)), Some(NotReady(name))}
  {
    InstalledIs(agents, name);
    ReadyIs(agents, name);
    hide Installed, Ready, Lower, KNOWN_AGENTS, LoggedIn;
  }

  /** Entry `k` is installed under the name, has an adapter and needs no login. */
  predicate LoggedIn(agents: seq<Agent>, name: string, k: int) {
    && 0 <= k < |agents| && Lower(agents[k].id) == name
    && agents[k].available && agents[k].runnable && !agents[k].needsLogin
  }

  lemma ReadyIs(agents: seq<Agent>, name: string)
    ensures Ready(agents, name) <==> exists k :: LoggedIn(agents, name, k)
  {
    hide Lower;
    if k :| LoggedIn(agents, name, k) {
      assert CanRun(agents[k]);
    }
    if k :| 0 <= k < |agents| && CanRun(agents[k]) && Lower(agents[k].id) == name {
      assert LoggedIn(agents, name, k);
    }
  }

  /** Entry `k` is the last available one under the name. */
  ghost predicate LastInstalled(agents: seq<Agent>, name: string, k: int) {
    && 0 <= k < |agents| && agents[k].available && Lower(agents[k].id) == name
    && forall j | k < j < |agents| :: !(agents[j].available && Lower(agents[j].id) == name)
  }

  lemma {:induction false} InstalledIs(agents: seq<Agent>, name: string)
    ensures forall k | LastInstalled(agents, name, k) :: Installed(agents, name) == Some(agents[k])
    ensures Installed(agents, name).Some? ==> exists k :: LastInstalled(agents, name, k) && agents[k] == Installed(agents, name).value
  {
    hide Lower;
    if agents != [] {
      var n := |agents| - 1;
      var last, before := agents[n], agents[..n];
      if last.available && Lower(last.id) == name {
        assert LastInstalled(agents, name, n);
      } else {
        InstalledIs(before, name);
        forall k ensures LastInstalled(agents, name, k) <==> LastInstalled(before, name, k) {
        }
      }
    }
  }

  /**
    When compilation refuses: exactly an all-space request, one of more than 48 KiB, one with more than
    eight mentions, one without a mention when no known agent is ready, and otherwise at the first
    mention of an agent that is refused.
  */
  lemma RefusedIff(input: string, agents: seq<Agent>)
    ensures WellPlaced(TrimSpace(input), Matches(TrimSpace(input)))
    ensures var s := TrimSpace(input);
            var ms := Matches(s);
            var r := Compiled(input, agents);
            && (r == Err(RequestRequired) <==> forall i | 0 <= i < |input| :: IsSpace(input[i]))
            && (r == Err(RequestTooLarge) <==> Utf8Length(s) > MAX_REQUEST_BYTES)
            && (r == Err(TooManyStages) <==> Fits(s) && |ms| > MAX_STAGES)
            && (r == Err(NoAgent) <==> Fits(s) && NothingMentioned(s) && forall k | 0 <= k < |KNOWN_AGENTS| :: !Ready(agents, KNOWN_AGENTS[k]))
            && (Fits(s) && 0 < |ms| <= MAX_STAGES ==>
                  if r.Ok? then forall k | 0 <= k < |ms| :: Refusal(agents, NameOf(s, ms[k])).None?
                  else exists k: nat :: FirstRefused(agents, s, ms, k) && Refusal(agents, NameOf(s, ms[k])) == Some(r.error))
  {
    var s := TrimSpace(input);
    var ms := Matches(s);
    hide Matches, TrimSpace, Utf8Length, Stages, Refusal, NameOf, Ready, FirstReady, KNOWN_AGENTS, WellPlaced, NothingMentioned, IsSpace,
         FirstRefused, IsPreferred;
    MatchesArePlaced(s);
    SpacesOnly(input);
    NoMatchesIff(s);
    FirstReadyIs(agents, 0);
    StagesAre(s, ms, |ms|, agents);
    EmptyIsShort();
    if Stages(s, ms, |ms|, agents).Err? {
      var k := RefusedFirst(s, ms, |ms|, agents);
      RefusalsOnly(s, ms, |ms|, agents);
    }
  }

  lemma RefusalsOnly(s: string, ms: seq<Match>, n: nat, agents: seq<Agent>)
    requires WellPlaced(s, ms) && n <= |ms| && Stages(s, ms, n, agents).Err?
    ensures var e := Stages(s, ms, n, agents).error;
            e.UnknownAgent? || e.NotEnabled? || e.NotReady?
  {
    var k := RefusedFirst(s, ms, n, agents);
    hide Stages, NameOf, Installed, Ready, KNOWN_AGENTS;
  }

  lemma EmptyIsShort()
    ensures Utf8Length("") == 0
  {
  }
}
