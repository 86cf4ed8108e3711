/** When a queued turn loses its run loop, and how long it then waits. */
module CoordinatorStranding {
  import opened Coordinator
  import opened CoordinatorRuns
  import opened CoordinatorSteps
  import opened Ownership
  import opened WorkflowRows

  ghost predicate IsQueued(s: State, id: WorkflowId, p: nat) {
    id in s.rows && p < |s.rows[id].stages| && s.rows[id].stages[p].status == StageQueued
  }

  /** Work is waiting and nobody will do it. */
  ghost predicate Stranded(s: State, id: WorkflowId) {
    id in s.rows && HasQueued(s.rows[id]) && id !in s.owners.running
  }

  lemma InterruptKeepsQueue(row: Workflow)
    ensures HasQueued(MarkRowInterrupted(row)) <==> HasQueued(row)
  {
    var next := MarkRowInterrupted(row);
    assert forall i | 0 <= i < |row.stages| :: row.stages[i].status == StageQueued <==> next.stages[i].status == StageQueued;
    if i :| 0 <= i < |row.stages| && row.stages[i].status == StageQueued {
      assert next.stages[i].status == StageQueued;
    }
  }

  /** The owner's own facts, for an entry of a stored workflow. */
  lemma OwnerFacts(s: State, id: WorkflowId)
    requires Inv(s) && id in s.owners.running && id in s.rows
    ensures Owns(s, s.owners.running[id]) && s.loops[s.owners.running[id]].id == id
    ensures !s.loops[s.owners.running[id]].pc.Reserved?
  {
    assert LoopOk(s, s.owners.running[id]);
  }

  /** The two steps that strand: the row's queue is as it was, and the entry is gone. */
  lemma ReleaseStrands(s: State, a: Action, n: State, id: WorkflowId)
    requires Inv(s) && Stepped(s, a, n) && id in s.owners.running && id in s.rows
    requires a == Releases(s.owners.running[id]) || a == Restart
    ensures id !in n.owners.running && id in n.rows
    ensures HasQueued(n.rows[id]) <==> HasQueued(s.rows[id])
  {
    OwnerFacts(s, id);
    InterruptKeepsQueue(s.rows[id]);
    hide Inv, HasQueued, MarkRowInterrupted;
  }

  /** The other steps that give an entry up leave nothing queued. */
  lemma CompletionStrandsNobody(s: State, a: Action, n: State, id: WorkflowId, ok: bool)
    requires Inv(s) && Stepped(s, a, n) && id in s.owners.running && id in s.rows
    requires a == Completes(s.owners.running[id], ok)
    ensures id in n.rows && !HasQueued(n.rows[id])
  {
    OwnerFacts(s, id);
    CompletionFacts(s, s.owners.running[id]);
    hide Inv;
  }

  lemma StepStrands(s: State, a: Action, n: State, id: WorkflowId)
    requires Inv(s) && Stepped(s, a, n) && id in s.owners.running && id in s.rows
    ensures Stranded(n, id) <==> HasQueued(s.rows[id]) && (a == Releases(s.owners.running[id]) || a == Restart)
  {
    hide Inv, Apply, HasQueued, Owns, LoopsHaveRows;
    var token := s.owners.running[id];
    OwnerFacts(s, id);
    if a == Releases(token) || a == Restart {
      ReleaseStrands(s, a, n, id);
    } else if ok :| a == Completes(token, ok) {
      CompletionStrandsNobody(s, a, n, id, ok);
    } else {
      StepKeepsEntry(s, a, n, id);
    }
  }

  /**
    A workflow with work queued loses its run loop exactly by the loop's deferred cleanup (after a
    cancel, a failure or a failed read) or by a restart.
  */
  lemma StrandsIff(states: seq<State>, actions: seq<Action>, k: nat, id: WorkflowId)
    requires IsRun(states, actions) && k < |actions|
    requires id in states[k].owners.running && id in states[k].rows
    ensures Stranded(states[k + 1], id) <==>
            HasQueued(states[k].rows[id]) && (actions[k] == Releases(states[k].owners.running[id]) || actions[k] == Restart)
  {
    hide Stepped, Inv, Stranded;
    AlwaysInv(states, actions, k);
    StepStrands(states[k], actions[k], states[k + 1], id);
  }

  // ---- an owner that is on its way out ---------------------------------------------------------

  /** The loop that owns the entry has returned from its last turn: it will not look at the queue again. */
  ghost predicate Doomed(s: State, id: WorkflowId) {
    && id in s.owners.running && s.owners.running[id] in s.loops
    && s.loops[s.owners.running[id]].pc in {Errored, Failing, Exiting}
  }

  /** No loop is about to start a stage of the workflow. */
  ghost predicate NobodyPicks(s: State, id: WorkflowId) {
    forall t | t in s.loops && s.loops[t].id == id :: !s.loops[t].pc.Picked?
  }

  lemma DoomedPicksNothing(s: State, id: WorkflowId)
    requires Inv(s) && (Doomed(s, id) || id !in s.owners.running)
    ensures NobodyPicks(s, id)
  {
    forall t | t in s.loops && s.loops[t].id == id ensures !s.loops[t].pc.Picked? {
      assert LoopOk(s, t);
    }
  }

  /** Then only a cancel takes a turn off the queue. */
  lemma OnlyCancelTakes(s: State, a: Action, n: State, id: WorkflowId, p: nat)
    requires Inv(s) && StartedLeft(s) && Stepped(s, a, n) && IsQueued(s, id, p)
    requires Doomed(s, id) || id !in s.owners.running
    ensures IsQueued(n, id, p) <==> a != CancelQueue(id)
  {
    hide Inv, Stepped, Doomed, StartedLeft;
    DoomedPicksNothing(s, id);
    StepConsumes(s, a, n, id, p);
  }

  lemma DoomedLoop(s: State, a: Action, n: State, token: Token)
    requires Stepped(s, a, n) && token in s.loops && s.loops[token].pc in {Errored, Failing, Exiting} && token < s.next
    ensures token in n.loops ==> n.loops[token].pc in {Errored, Failing, Exiting}
    ensures token in n.loops || a == Releases(token) || a == Restart
  {
    hide Participant, IsDraft, TurnOf, HasQueued, CanReserve, Claim, Release, Rollback, StartStage, FinishStage, CancelQueuedStages,
         AddMessage, AddMessageWithStage, MarkInterrupted, FirstQueued;
  }

  lemma TokensBelowNext(s: State, token: Token)
    requires Inv(s) && token in s.loops
    ensures token < s.next
  {
    assert LoopOk(s, token);
  }

  lemma DoomedCompletesNothing(s: State, a: Action, n: State, id: WorkflowId)
    requires Inv(s) && Stepped(s, a, n) && id in s.rows && Doomed(s, id)
    ensures GivesUp(a, s.owners.running[id]) ==> a == Releases(s.owners.running[id]) || a == Restart
  {
    hide Inv, Apply, Owns, HasQueued;
    var token := s.owners.running[id];
    OwnerFacts(s, id);
    if s.mutex == Completing(token) {
      CompletionFacts(s, token);
    }
  }

  lemma StepDoomed(s: State, a: Action, n: State, id: WorkflowId)
    requires Inv(s) && Stepped(s, a, n) && id in s.rows && Doomed(s, id)
    ensures if a == Releases(s.owners.running[id]) || a == Restart then id !in n.owners.running
            else Doomed(n, id) && n.owners.running[id] == s.owners.running[id]
  {
    var token := s.owners.running[id];
    OwnerFacts(s, id);
    TokensBelowNext(s, token);
    if a == Releases(token) || a == Restart {
      hide Inv, Stepped, HasQueued, Doomed, Owns;
      ReleaseStrands(s, a, n, id);
    } else {
      hide Inv, Stepped, HasQueued, Owns, GivesUp;
      DoomedCompletesNothing(s, a, n, id);
      DoomedLoop(s, a, n, token);
      StepKeepsEntry(s, a, n, id);
    }
  }

  /** A doomed owner stays, and stays doomed, until its entry goes. */
  lemma {:induction false} StaysDoomed(states: seq<State>, actions: seq<Action>, i: nat, k: nat, id: WorkflowId)
    requires IsRun(states, actions) && i <= k < |states|
    requires id in states[i].rows && Doomed(states[i], id)
    requires forall h | i <= h <= k :: id in states[h].owners.running
    ensures id in states[k].rows && Doomed(states[k], id)
    ensures states[k].owners.running[id] == states[i].owners.running[id]
    decreases k
  {
    hide Stepped, Inv, Doomed;
    if i < k {
      StaysDoomed(states, actions, i, k - 1, id);
      AlwaysInv(states, actions, k - 1);
      RunGrows(states, actions, k - 1, k, id);
      StepDoomed(states[k - 1], actions[k - 1], states[k], id);
    }
  }

  /** While the owner is doomed or there is none, a turn stays queued exactly as long as nobody cancels the queue. */
  lemma {:induction false} WaitsUntilCancel(states: seq<State>, actions: seq<Action>, i: nat, j: nat, id: WorkflowId, p: nat)
    requires IsRun(states, actions) && i <= j < |states| && IsQueued(states[i], id, p)
    requires forall k | i <= k < j :: Doomed(states[k], id) || id !in states[k].owners.running
    ensures IsQueued(states[j], id, p) <==> forall k | i <= k < j :: actions[k] != CancelQueue(id)
    decreases j
  {
    hide Stepped, Inv, Doomed, StartedLeft;
    if i < j {
      WaitsUntilCancel(states, actions, i, j - 1, id, p);
      RunGrows(states, actions, i, j - 1, id);
      RunGrows(states, actions, j - 1, j, id);
      AlwaysInv(states, actions, j - 1);
      AlwaysStarted(states, actions, j - 1);
      if IsQueued(states[j - 1], id, p) {
        OnlyCancelTakes(states[j - 1], actions[j - 1], states[j], id, p);
      }
    }
  }

  /**
    A turn queued behind a doomed owner never gets a loop from it. The entry goes (at step `m`) by the
    owner's cleanup or a restart, and the turn is then stranded unless a cancel took it meanwhile.
  */
  lemma DoomedStrands(states: seq<State>, actions: seq<Action>, i: nat, m: nat, id: WorkflowId, p: nat)
    requires IsRun(states, actions) && i <= m < |actions|
    requires Doomed(states[i], id) && IsQueued(states[i], id, p)
    requires (forall k | i <= k <= m :: id in states[k].owners.running) && id !in states[m + 1].owners.running
    ensures actions[m] == Releases(states[i].owners.running[id]) || actions[m] == Restart
    ensures IsQueued(states[m + 1], id, p) <==> forall k | i <= k <= m :: actions[k] != CancelQueue(id)
  {
    hide Stepped, Inv, Doomed;
    forall k | i <= k <= m ensures Doomed(states[k], id) {
      StaysDoomed(states, actions, i, k, id);
    }
    StaysDoomed(states, actions, i, m, id);
    AlwaysInv(states, actions, m);
    assert Stepped(states[m], actions[m], states[m + 1]);
    StepDoomed(states[m], actions[m], states[m + 1], id);
    DoomedHasEntry(states[m + 1], id);
    WaitsUntilCancel(states, actions, i, m + 1, id, p);
  }

  lemma DoomedHasEntry(s: State, id: WorkflowId)
    ensures Doomed(s, id) ==> id in s.owners.running
  {
  }

  /**
    The sender's view. A message succeeds while the owner is already doomed; when that owner's entry
    goes, the message's turn is left queued with no run loop exactly when nothing took it inside the
    lock section and no cancel took it afterwards.
  */
  lemma SendStrands(states: seq<State>, actions: seq<Action>, i: nat, j: nat, m: nat, id: WorkflowId, agent: AgentId)
    requires SendSection(states, actions, i, j, id, agent) && j < m < |actions|
    requires Doomed(states[j + 1], id)
    requires (forall k | j < k <= m :: id in states[k].owners.running) && id !in states[m + 1].owners.running
    ensures id in states[m + 1].rows && states[j].mutex.turn.QueuedTurn?
    ensures QueuedFor(states[m + 1].rows[id], agent, states[j].mutex.turn.stage) <==>
            && (forall k | i < k < j :: !Consumes(states[k], actions[k], id, states[j].mutex.turn.stage))
            && (forall k | j < k <= m :: actions[k] != CancelQueue(id))
  {
    hide Stepped, Inv, Consumes, Doomed, QueuedCount;
    SendLeavesTurnAndOwner(states, actions, i, j, id, agent);
    var p := states[j].mutex.turn.stage;
    RunGrows(states, actions, j + 1, m + 1, id);
    TurnIsOurs(states, actions, i, j, id, agent);
    if IsQueued(states[j + 1], id, p) {
      DoomedStrands(states, actions, j + 1, m, id, p);
    }
  }

  /** The stage the message relies on exists and belongs to the addressed agent. */
  lemma TurnIsOurs(states: seq<State>, actions: seq<Action>, i: nat, j: nat, id: WorkflowId, agent: AgentId)
    requires SendSection(states, actions, i, j, id, agent) && states[j].mutex.turn.QueuedTurn? && id in states[j + 1].rows
    ensures states[j].mutex.turn.stage < |states[j + 1].rows[id].stages|
    ensures states[j + 1].rows[id].stages[states[j].mutex.turn.stage].agent == agent
  {
    hide Stepped, Inv, QueuedCount;
    AlwaysInv(states, actions, j);
    SectionKeepsCount(states, actions, i, j, j, id, agent);
    ReturnLeavesOwner(states[j], actions[j], states[j + 1]);
    MutexOf(states[j]);
  }

  // ---- how a stranded workflow gets a loop again ------------------------------------------------

  lemma SendingFacts(s: State)
    requires Inv(s)
    ensures s.mutex.Sending? ==> s.mutex.id in s.rows && (s.mutex.needsStart <==> s.mutex.id !in s.owners.running)
  {
    MutexOf(s);
    hide Inv, LoopsHaveRows, HasQueued, QueuedFor;
  }

  lemma OnlyMessagesRevive(s: State, a: Action, n: State, id: WorkflowId)
    requires Inv(s) && Stepped(s, a, n) && id in s.rows && id !in s.owners.running
    ensures id in n.owners.running <==> a == SendReturns && s.mutex.id == id
  {
    hide Inv, LoopsHaveRows, MutexOk, HasQueued, QueuedFor, TurnOf, Scan, Participant, IsDraft, CanReserve, StartStage, FinishStage,
         CancelQueuedStages, AddMessage, AddMessageWithStage, MarkInterrupted, SetWorkflowStatus, CreateWorkflow, FirstQueued;
    SendingFacts(s);
  }

  /**
    A stranded workflow stays without a loop, restarts included, until a message to one of its agents
    returns, and its turns wait until then unless a cancel takes them.
  */
  lemma StrandedUntilMessage(states: seq<State>, actions: seq<Action>, i: nat, j: nat, id: WorkflowId, p: nat)
    requires IsRun(states, actions) && i <= j < |states|
    requires id !in states[i].owners.running && IsQueued(states[i], id, p)
    requires forall k | i <= k < j :: !(actions[k] == SendReturns && states[k].mutex.Sending? && states[k].mutex.id == id)
    ensures id !in states[j].owners.running
    ensures IsQueued(states[j], id, p) <==> forall k | i <= k < j :: actions[k] != CancelQueue(id)
  {
    hide Stepped, Inv;
    forall k | i <= k <= j ensures id !in states[k].owners.running {
      NoLoopUntilMessage(states, actions, i, k, id);
    }
    WaitsUntilCancel(states, actions, i, j, id, p);
  }

  lemma {:induction false} NoLoopUntilMessage(states: seq<State>, actions: seq<Action>, i: nat, k: nat, id: WorkflowId)
    requires IsRun(states, actions) && i <= k < |states| && id in states[i].rows && id !in states[i].owners.running
    requires forall h | i <= h < k :: !(actions[h] == SendReturns && states[h].mutex.Sending? && states[h].mutex.id == id)
    ensures id !in states[k].owners.running
    decreases k
  {
    hide Stepped, Inv;
    if i < k {
      NoLoopUntilMessage(states, actions, i, k - 1, id);
      RunGrows(states, actions, i, k - 1, id);
      AlwaysInv(states, actions, k - 1);
      ReturnIsSending(states[k - 1], actions[k - 1], states[k]);
      OnlyMessagesRevive(states[k - 1], actions[k - 1], states[k], id);
    }
  }

  lemma ReturnIsSending(s: State, a: Action, n: State)
    requires Stepped(s, a, n)
    ensures a == SendReturns ==> s.mutex.Sending?
  {
  }
}
