/** What holds over whole runs of the coordinator: any number of threads, messages, cancels and restarts. */
module CoordinatorRuns {
  import opened Collections
  import opened Coordinator
  import opened CoordinatorInvariant
  import opened CoordinatorSteps
  import opened Ownership
  import opened WorkflowRows

  ghost predicate Stepped(s: State, a: Action, n: State) {
    LoopsHaveRows(s) && Enabled(s, a) && n == Apply(s, a)
  }

  ghost predicate IsRun(states: seq<State>, actions: seq<Action>) {
    && |states| == |actions| + 1
    && states[0] == INIT
    && forall k | 0 <= k < |actions| :: Stepped(states[k], actions[k], states[k + 1])
  }

  lemma SteppedKeeps(s: State, a: Action, n: State)
    requires Inv(s) && Stepped(s, a, n)
    ensures Inv(n)
  {
    StepKeeps(s, a);
  }

  /** The invariant holds in every state of every run. */
  lemma {:induction false} AlwaysInv(states: seq<State>, actions: seq<Action>, k: nat)
    requires IsRun(states, actions) && k < |states|
    ensures Inv(states[k])
  {
    hide Stepped, Inv;
    if k > 0 {
      AlwaysInv(states, actions, k - 1);
      SteppedKeeps(states[k - 1], actions[k - 1], states[k]);
    } else {
      InitOk();
    }
  }

  // ---- mutual exclusion ------------------------------------------------------------------------

  lemma OwnersOkIsBijective(s: State)
    requires OwnersOk(s)
    ensures Bijective(s.owners)
  {
    var o := s.owners;
    forall id | id in o.running ensures id in o.workspaces.Values {
      assert Owns(s, o.running[id]);
    }
  }

  /** At most two workflows run, each in its own workspace, in every state of every run. */
  lemma OwnershipAlwaysBijective(states: seq<State>, actions: seq<Action>, k: nat)
    requires IsRun(states, actions) && k < |states|
    ensures Bijective(states[k].owners)
  {
    AlwaysInv(states, actions, k);
    OwnersOkIsBijective(states[k]);
  }

  ghost predicate GivesUp(a: Action, token: Token) {
    a == CreateFails(token) || (exists ok :: a == Completes(token, ok)) || a == Releases(token) || a == Restart
  }

  lemma EntryFacts(s: State, a: Action, id: WorkflowId)
    requires Inv(s) && Enabled(s, a) && id in s.owners.running
    ensures a.CreateFails? && s.loops[a.token].id == id ==> s.owners.running[id] == a.token
    ensures a.SendReturns? && s.mutex.needsStart ==> s.mutex.id != id
  {
    if a.CreateFails? {
      assert LoopOk(s, a.token);
    }
    assert MutexOk(s);
  }

  lemma StepKeepsEntry(s: State, a: Action, n: State, id: WorkflowId)
    requires Inv(s) && Stepped(s, a, n) && id in s.owners.running && !GivesUp(a, s.owners.running[id])
    ensures id in n.owners.running && n.owners.running[id] == s.owners.running[id]
  {
    hide Inv, Participant, IsDraft, TurnOf, Scan, HasQueued, StartStage, FinishStage, MarkInterrupted, SetWorkflowStatus,
         CancelQueuedStages, AddMessage, AddMessageWithStage, CanReserve;
    EntryFacts(s, a, id);
    if a.Completes? {
      assert GivesUp(a, a.token);
    }
  }

  /**
    An entry disappears or changes hands only by a step of the goroutine that owns it (or a restart):
    a loop that released its entry and still has its deferred cleanup to run cannot remove the entry
    of a successor for the same workflow.
  */
  lemma OnlyTheOwnerReleases(states: seq<State>, actions: seq<Action>, k: nat, id: WorkflowId)
    requires IsRun(states, actions) && k < |actions|
    requires id in states[k].owners.running
    requires !GivesUp(actions[k], states[k].owners.running[id])
    ensures id in states[k + 1].owners.running
    ensures states[k + 1].owners.running[id] == states[k].owners.running[id]
  {
    hide Stepped, Inv;
    AlwaysInv(states, actions, k);
    StepKeepsEntry(states[k], actions[k], states[k + 1], id);
  }

  // ---- stages ----------------------------------------------------------------------------------

  ghost predicate RowGrows(row: Workflow, next: Workflow) {
    && row.events <= next.events
    && |row.stages| <= |next.stages|
    && forall i | 0 <= i < |row.stages| ::
         && next.stages[i].agent == row.stages[i].agent
         && next.stages[i].position == row.stages[i].position
         && (row.stages[i].status != StageQueued ==> next.stages[i].status != StageQueued)
  }

  /** What a step does to one row. */
  ghost function RowAfter(s: State, a: Action, id: WorkflowId): Workflow
    requires LoopsHaveRows(s) && Enabled(s, a) && id in s.rows
  {
    var row := s.rows[id];
    match a
    case Completes(token, ok) => if ok && s.loops[token].id == id then row.(status := Completed) else row
    case StageAborts(token, recorded) =>
      if recorded && s.loops[token].id == id then FinishStage(row, s.loops[token].pc.stage, StageFailed) else row
    case StageStarts(token) => if s.loops[token].id == id then StartStage(row, s.loops[token].pc.stage) else row
    case StageEnds(token, status, ok) =>
      if ok && s.loops[token].id == id then FinishStage(row, s.loops[token].pc.stage, status) else row
    case MarksFailed(token, ok) => if ok && s.loops[token].id == id then row.(status := Failed) else row
    case CancelQueue(w) => if w == id then CancelQueuedStages(row) else row
    case CancelStatus(w) => if w == id then row.(status := Cancelled) else row
    case SendWrites(ok) =>
      if !ok || s.mutex.id != id then row
      else if s.mutex.turn.QueuedTurn? then AddMessage(row, Message("human", s.mutex.agent))
      else AddMessageWithStage(row, Message("human", s.mutex.agent), s.mutex.agent)
    case Posts(w, message) => if w == id then AddMessage(row, message) else row
    case Restart => MarkRowInterrupted(row)
    case _ => row
  }

  lemma StepRow(s: State, a: Action, n: State, id: WorkflowId)
    requires Inv(s) && Stepped(s, a, n) && id in s.rows
    ensures id in n.rows && n.rows[id] == RowAfter(s, a, id)
  {
    hide Inv, Participant, IsDraft, TurnOf, Scan, HasQueued, CanReserve, Claim, Release, Rollback,
         StartStage, FinishStage, CancelQueuedStages, AddMessage, AddMessageWithStage, MarkRowInterrupted;
    if a.CreateCommits? {
      CommitFacts(s, a.token);
    }
  }

  /** A step never takes a stage or an event away, and never puts a stage back into the queue. */
  lemma StepGrows(s: State, a: Action, n: State, id: WorkflowId)
    requires Inv(s) && Stepped(s, a, n) && id in s.rows
    ensures id in n.rows && RowGrows(s.rows[id], n.rows[id])
  {
    hide Inv, NextPosition, Revived, Apply;
    StepRow(s, a, n, id);
  }

  lemma {:induction false} RunGrows(states: seq<State>, actions: seq<Action>, i: nat, j: nat, id: WorkflowId)
    requires IsRun(states, actions) && i <= j < |states| && id in states[i].rows
    ensures id in states[j].rows && RowGrows(states[i].rows[id], states[j].rows[id])
    decreases j
  {
    hide Stepped, Inv;
    if i < j {
      RunGrows(states, actions, i, j - 1, id);
      AlwaysInv(states, actions, j - 1);
      StepGrows(states[j - 1], actions[j - 1], states[j], id);
    }
  }

  /**
    Over a workflow's whole life the `stage.started` events form a list that only grows and names
    strictly increasing positions: no stage starts twice, and stages start in order.
  */
  lemma StagesStartOnceInOrder(states: seq<State>, actions: seq<Action>, i: nat, j: nat, id: WorkflowId)
    requires IsRun(states, actions) && i <= j < |states| && id in states[i].rows
    ensures id in states[j].rows && states[i].rows[id].events <= states[j].rows[id].events
    ensures StartsIncrease(states[j].rows[id].events)
    ensures PositionsAreIndices(states[j].rows[id])
  {
    RunGrows(states, actions, i, j, id);
    AlwaysInv(states, actions, j);
    assert RowOk(states[j].rows[id]);
  }

  ghost function BusyWorkflows(s: State): set<WorkflowId> {
    set id | id in s.rows && !NoneRunning(s.rows[id])
  }

  /** While no end of a stage has been lost: one running stage per workflow, two in the whole store. */
  lemma RunningStagesAreFew(states: seq<State>, actions: seq<Action>, k: nat)
    requires IsRun(states, actions) && k < |states| && !states[k].lost
    ensures |BusyWorkflows(states[k])| <= MAX_RUNNING
    ensures forall id, i: nat, j: nat | id in states[k].rows && i < |states[k].rows[id].stages| && j < |states[k].rows[id].stages| ::
              states[k].rows[id].stages[i].status == StageRunning && states[k].rows[id].stages[j].status == StageRunning ==> i == j
  {
    var s := states[k];
    AlwaysInv(states, actions, k);
    forall id | id in BusyWorkflows(s) ensures id in s.owners.running {
      var i: nat :| i < |s.rows[id].stages| && s.rows[id].stages[i].status == StageRunning;
      assert WaitsFor(s, id, i);
    }
    SubsetIsSmaller(BusyWorkflows(s), s.owners.running.Keys);
    forall id, i: nat, j: nat | id in s.rows && i < |s.rows[id].stages| && j < |s.rows[id].stages|
        && s.rows[id].stages[i].status == StageRunning && s.rows[id].stages[j].status == StageRunning
      ensures i == j
    {
      assert WaitsFor(s, id, i) && WaitsFor(s, id, j);
    }
  }

  /** A completed workflow has no queued stage, no owner, and no running stage unless an end was lost. */
  lemma CompletedMeansDone(states: seq<State>, actions: seq<Action>, k: nat, id: WorkflowId)
    requires IsRun(states, actions) && k < |states|
    requires id in states[k].rows && states[k].rows[id].status == Completed
    ensures !HasQueued(states[k].rows[id]) && id !in states[k].owners.running
    ensures !states[k].lost ==> NoneRunning(states[k].rows[id])
  {
    var s := states[k];
    AlwaysInv(states, actions, k);
    if !s.lost {
      assert forall i: nat | i < |s.rows[id].stages| && s.rows[id].stages[i].status == StageRunning :: WaitsFor(s, id, i);
    }
  }

  /** The completion check never strands a turn: nothing is queued when it gives the entry up. */
  lemma CompletionStrandsNothing(states: seq<State>, actions: seq<Action>, k: nat, token: Token, ok: bool)
    requires IsRun(states, actions) && k < |actions| && actions[k] == Completes(token, ok)
    ensures token in states[k].loops && states[k].loops[token].id in states[k + 1].rows
    ensures !HasQueued(states[k + 1].rows[states[k].loops[token].id])
    ensures states[k].loops[token].id !in states[k + 1].owners.running
    ensures ok ==> states[k + 1].rows[states[k].loops[token].id].status == Completed
  {
    AlwaysInv(states, actions, k);
    assert Stepped(states[k], actions[k], states[k + 1]);
    CompletionFacts(states[k], token);
  }

  // ---- SendMessage -----------------------------------------------------------------------------

  /** The step takes stage `p` of workflow `id` off the queue. */
  ghost predicate Consumes(s: State, a: Action, id: WorkflowId, p: nat) {
    && id in s.rows && p < |s.rows[id].stages| && s.rows[id].stages[p].status == StageQueued
    && (match a
        case CancelQueue(w) => w == id
        case StageStarts(token) => token in s.loops && s.loops[token].id == id && s.loops[token].pc == Picked(p)
        case StageAborts(token, recorded) => recorded && token in s.loops && s.loops[token].id == id && s.loops[token].pc == Picked(p)
        case _ => false)
  }

  /** The stage a loop has started is no longer queued. */
  ghost predicate StartedLeft(s: State) {
    forall t | t in s.loops && s.loops[t].pc.Started? && s.loops[t].id in s.rows && s.loops[t].pc.stage < |s.rows[s.loops[t].id].stages| ::
      s.rows[s.loops[t].id].stages[s.loops[t].pc.stage].status != StageQueued
  }

  /** A loop that has started a stage had started it before, or has just done so. */
  lemma LoopBefore(s: State, a: Action, n: State, t: Token)
    requires Stepped(s, a, n) && t in n.loops && n.loops[t].pc.Started?
    ensures t in s.loops && s.loops[t].id == n.loops[t].id && s.loops[t].id in s.rows
    ensures n.loops[t].pc.stage < |s.rows[s.loops[t].id].stages|
    ensures s.loops[t].pc == n.loops[t].pc || (a == StageStarts(t) && s.loops[t].pc == Picked(n.loops[t].pc.stage))
  {
    hide Participant, IsDraft, TurnOf, HasQueued, CanReserve, Claim, Release, Rollback, StartStage, FinishStage, CancelQueuedStages,
         AddMessage, AddMessageWithStage, MarkInterrupted, FirstQueued;
  }

  lemma StepKeepsStarted(s: State, a: Action, n: State)
    requires Inv(s) && Stepped(s, a, n) && StartedLeft(s)
    ensures StartedLeft(n)
  {
    hide Inv, Stepped, RowGrows, RowAfter;
    forall t | t in n.loops && n.loops[t].pc.Started? && n.loops[t].id in n.rows && n.loops[t].pc.stage < |n.rows[n.loops[t].id].stages|
      ensures n.rows[n.loops[t].id].stages[n.loops[t].pc.stage].status != StageQueued
    {
      LoopBefore(s, a, n, t);
      StepStartedRow(s, a, n, t);
    }
  }

  lemma StepStartedRow(s: State, a: Action, n: State, t: Token)
    requires Inv(s) && Stepped(s, a, n) && StartedLeft(s) && t in s.loops && s.loops[t].id in s.rows
    requires s.loops[t].pc.Started? || (a == StageStarts(t) && s.loops[t].pc.Picked?)
    requires s.loops[t].pc.stage < |s.rows[s.loops[t].id].stages|
    ensures s.loops[t].id in n.rows && s.loops[t].pc.stage < |n.rows[s.loops[t].id].stages|
    ensures n.rows[s.loops[t].id].stages[s.loops[t].pc.stage].status != StageQueued
  {
    hide Inv, Apply;
    StepGrows(s, a, n, s.loops[t].id);
    StepRow(s, a, n, s.loops[t].id);
  }

  lemma {:induction false} AlwaysStarted(states: seq<State>, actions: seq<Action>, k: nat)
    requires IsRun(states, actions) && k < |states|
    ensures StartedLeft(states[k])
  {
    hide Stepped, Inv;
    if k > 0 {
      AlwaysStarted(states, actions, k - 1);
      AlwaysInv(states, actions, k - 1);
      StepKeepsStarted(states[k - 1], actions[k - 1], states[k]);
    }
  }

  lemma StepConsumes(s: State, a: Action, n: State, id: WorkflowId, p: nat)
    requires Inv(s) && StartedLeft(s) && Stepped(s, a, n) && id in s.rows && p < |s.rows[id].stages|
    requires s.rows[id].stages[p].status == StageQueued
    ensures id in n.rows && p < |n.rows[id].stages|
    ensures n.rows[id].stages[p].status == StageQueued <==> !Consumes(s, a, id, p)
  {
    hide Inv, NextPosition, Revived, Apply;
    StepRow(s, a, n, id);
  }

  /** A queued turn leaves the queue exactly when one of those steps takes it. */
  lemma {:induction false} TurnStaysQueued(states: seq<State>, actions: seq<Action>, i: nat, j: nat, id: WorkflowId, p: nat)
    requires IsRun(states, actions) && i <= j < |states|
    requires id in states[i].rows && p < |states[i].rows[id].stages| && states[i].rows[id].stages[p].status == StageQueued
    ensures id in states[j].rows && p < |states[j].rows[id].stages|
    ensures states[j].rows[id].stages[p].status == StageQueued <==> forall k | i <= k < j :: !Consumes(states[k], actions[k], id, p)
    decreases j
  {
    hide Stepped, Inv, Consumes, StartedLeft;
    RunGrows(states, actions, i, j, id);
    if i < j {
      TurnStaysQueued(states, actions, i, j - 1, id, p);
      RunGrows(states, actions, j - 1, j, id);
      AlwaysInv(states, actions, j - 1);
      AlwaysStarted(states, actions, j - 1);
      if states[j - 1].rows[id].stages[p].status == StageQueued {
        StepConsumes(states[j - 1], actions[j - 1], states[j], id, p);
      }
    }
  }

  /** States `i + 1` to `j` all lie inside one lock section of `sendAgentMessage` for `id`, which returns at step `j`. */
  ghost predicate SendSection(states: seq<State>, actions: seq<Action>, i: nat, j: nat, id: WorkflowId, agent: AgentId) {
    && IsRun(states, actions) && i < j < |actions|
    && actions[i].SendReads? && actions[i].id == id && actions[i].agent == agent
    && actions[j] == SendReturns
    && forall k | i < k <= j :: states[k].mutex.Sending? && (k < j ==> actions[k] != SendReturns)
  }

  lemma StepInSection(s: State, a: Action, n: State)
    requires Inv(s) && Stepped(s, a, n) && s.mutex.Sending? && n.mutex.Sending? && a != SendReturns
    ensures n.mutex == if a.SendWrites? then n.mutex.(id := s.mutex.id, agent := s.mutex.agent, needsStart := s.mutex.needsStart, committed := true)
                       else s.mutex
    ensures a.SendWrites? ==> !s.mutex.committed && n == SendWritten(s, true)
  {
    hide Inv, HasQueued, Scan, TurnOf, Participant, IsDraft, CanReserve, Claim, Release, Rollback, LoopsHaveRows,
         StartStage, FinishStage, CancelQueuedStages, AddMessage, AddMessageWithStage, MarkInterrupted;
  }

  /** How many queued turns the addressed agent may have, given how many it had at the read. */
  ghost predicate CountBounded(s: State, id: WorkflowId, agent: AgentId, before: nat) {
    && s.mutex.Sending? && s.mutex.id == id && s.mutex.agent == agent && id in s.rows
    && QueuedCount(s.rows[id], agent) <= if s.mutex.committed && before == 0 then 1 else before
  }

  lemma QueuedShrinks(row: Workflow, next: Workflow, agent: AgentId)
    requires RowGrows(row, next) && |next.stages| == |row.stages|
    ensures QueuedCount(next, agent) <= QueuedCount(row, agent)
  {
    SubsetIsSmaller(set i: nat | i < |next.stages| && QueuedFor(next, agent, i), set i: nat | i < |row.stages| && QueuedFor(row, agent, i));
  }

  lemma FollowUpCount(row: Workflow, agent: AgentId)
    requires forall i: nat :: !QueuedFor(row, agent, i)
    ensures QueuedCount(AddMessageWithStage(row, Message("human", agent), agent), agent) == 1
  {
    var next := AddMessageWithStage(row, Message("human", agent), agent);
    assert forall i: nat | i < |row.stages| :: !QueuedFor(row, agent, i) && next.stages[i] == row.stages[i];
    assert (set i: nat | i < |next.stages| && QueuedFor(next, agent, i)) == {|row.stages|};
  }

  lemma StepKeepsCount(s: State, a: Action, n: State, id: WorkflowId, agent: AgentId, before: nat)
    requires Inv(s) && Stepped(s, a, n) && n.mutex.Sending? && a != SendReturns && CountBounded(s, id, agent, before)
    ensures CountBounded(n, id, agent, before)
  {
    MutexOf(s);
    hide Inv, QueuedCount, Apply, RowGrows, LoopsHaveRows, AddMessageWithStage, QueuedFor, SendWritten, StartStage, FinishStage,
         CancelQueuedStages, MarkRowInterrupted;
    StepInSection(s, a, n);
    StepGrows(s, a, n, id);
    StepRow(s, a, n, id);
    if a.SendWrites? && s.mutex.turn.NoTurn? {
      FollowUpCount(s.rows[id], agent);
    } else {
      StagesStay(s, a, id);
      QueuedShrinks(s.rows[id], n.rows[id], agent);
    }
  }

  lemma MutexOf(s: State)
    requires Inv(s)
    ensures MutexOk(s) && LoopsHaveRows(s)
  {
  }

  /** Only a follow-up adds a stage to an existing row. */
  lemma StagesStay(s: State, a: Action, id: WorkflowId)
    requires LoopsHaveRows(s) && Enabled(s, a) && id in s.rows && s.mutex.Sending? && !(a.SendWrites? && s.mutex.turn.NoTurn?)
    ensures |RowAfter(s, a, id).stages| == |s.rows[id].stages|
  {
  }

  lemma SectionStarts(s: State, a: Action, n: State)
    requires Inv(s) && Stepped(s, a, n) && a.SendReads?
    ensures a.id in s.rows && n.rows == s.rows && !n.mutex.Free?
    ensures CountBounded(n, a.id, a.agent, QueuedCount(s.rows[a.id], a.agent))
    ensures n.mutex.turn.QueuedTurn? ==> QueuedFor(n.rows[a.id], a.agent, n.mutex.turn.stage)
  {
    hide Inv;
  }

  lemma {:induction false} SectionKeepsCount(states: seq<State>, actions: seq<Action>, i: nat, j: nat, k: nat, id: WorkflowId, agent: AgentId)
    requires SendSection(states, actions, i, j, id, agent) && i < k <= j
    ensures id in states[i].rows && CountBounded(states[k], id, agent, QueuedCount(states[i].rows[id], agent))
    decreases k
  {
    hide Stepped, Inv, QueuedCount, CountBounded;
    AlwaysInv(states, actions, k - 1);
    if k == i + 1 {
      SectionStarts(states[i], actions[i], states[k]);
    } else {
      SectionKeepsCount(states, actions, i, j, k - 1, id, agent);
      StepKeepsCount(states[k - 1], actions[k - 1], states[k], id, agent, QueuedCount(states[i].rows[id], agent));
    }
  }

  /** Where the turn came from: the read saw it, or the write at step `c` appended it. */
  lemma {:induction false} TurnOrigin(states: seq<State>, actions: seq<Action>, i: nat, j: nat, k: nat, id: WorkflowId, agent: AgentId)
    returns (c: nat)
    requires SendSection(states, actions, i, j, id, agent) && i < k <= j && states[k].mutex.turn.QueuedTurn?
    ensures i <= c < k && id in states[c].rows && id in states[c + 1].rows
    ensures QueuedFor(states[c + 1].rows[id], agent, states[k].mutex.turn.stage)
    ensures c == i || states[k].mutex.turn.stage == |states[c].rows[id].stages|
    decreases k
  {
    hide Stepped, Inv, QueuedCount, Consumes;
    AlwaysInv(states, actions, k - 1);
    if k == i + 1 {
      SectionStarts(states[i], actions[i], states[k]);
      c := i;
    } else {
      SectionKeepsCount(states, actions, i, j, k - 1, id, agent);
      StepInSection(states[k - 1], actions[k - 1], states[k]);
      if states[k - 1].mutex.turn.QueuedTurn? {
        c := TurnOrigin(states, actions, i, j, k - 1, id, agent);
      } else {
        c := k - 1;
      }
    }
  }

  /** The lock is released with a loop running for the workflow. */
  lemma ReturnLeavesOwner(s: State, a: Action, n: State)
    requires Inv(s) && Stepped(s, a, n) && a == SendReturns
    ensures s.mutex.Sending? && s.mutex.turn.QueuedTurn? && s.mutex.id in n.owners.running && n.rows == s.rows
  {
    assert MutexOk(s);
    hide Inv, OwnersOk, LoopsOk, RowsOk, LoopsHaveRows;
  }

  /**
    What a successful message to a participant guarantees when the lock is released: the workflow has
    a run-loop owner, the agent has no more queued turns than before or just one, and the turn the
    message relies on is queued exactly when no step of a thread outside the lock (a cancel, or the run loop
    starting or aborting that very stage) took it inside the section.
  */
  lemma SendLeavesTurnAndOwner(states: seq<State>, actions: seq<Action>, i: nat, j: nat, id: WorkflowId, agent: AgentId)
    requires SendSection(states, actions, i, j, id, agent)
    ensures id in states[i].rows && id in states[j + 1].rows && states[j].mutex.turn.QueuedTurn?
    ensures id in states[j + 1].owners.running
    ensures QueuedCount(states[j + 1].rows[id], agent) <=
            if QueuedCount(states[i].rows[id], agent) == 0 then 1 else QueuedCount(states[i].rows[id], agent)
    ensures QueuedFor(states[j + 1].rows[id], agent, states[j].mutex.turn.stage) <==>
            forall k | i < k < j :: !Consumes(states[k], actions[k], id, states[j].mutex.turn.stage)
  {
    hide Stepped, Inv, QueuedCount, Consumes;
    AlwaysInv(states, actions, j);
    SectionKeepsCount(states, actions, i, j, j, id, agent);
    ReturnLeavesOwner(states[j], actions[j], states[j + 1]);
    var p := states[j].mutex.turn.stage;
    var c := TurnOrigin(states, actions, i, j, j, id, agent);
    TurnStaysQueued(states, actions, c + 1, j, id, p);
    RunGrows(states, actions, c + 1, j, id);
    forall k | i < k <= c ensures !Consumes(states[k], actions[k], id, p) {
      NotYetThere(states, actions, k, c, id, p);
    }
  }

  lemma NotYetThere(states: seq<State>, actions: seq<Action>, k: nat, c: nat, id: WorkflowId, p: nat)
    requires IsRun(states, actions) && k <= c < |actions| && id in states[c].rows && |states[c].rows[id].stages| <= p
    ensures !Consumes(states[k], actions[k], id, p)
  {
    hide Stepped;
    if id in states[k].rows {
      RunGrows(states, actions, k, c, id);
    }
  }
}
