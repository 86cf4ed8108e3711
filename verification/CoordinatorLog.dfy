/** The status of every stage agrees with the workflow's own event log, in every state of every run. */
module CoordinatorLog {
  import opened Coordinator
  import opened CoordinatorRuns
  import opened CoordinatorStatuses
  import opened Ownership
  import opened WorkflowRows

  ghost predicate HasStarted(row: Workflow, p: nat) {
    TurnStarted(p) in row.events
  }

  ghost predicate HasEnded(row: Workflow, p: nat, status: StageStatus) {
    TurnEnded(p, status) in row.events
  }

  ghost predicate NeverEnded(row: Workflow, p: nat) {
    forall status :: !HasEnded(row, p, status)
  }

  /** What the log says about a stage with this status. */
  ghost predicate StageTells(row: Workflow, p: nat, status: StageStatus) {
    match status
    case StageQueued => !HasStarted(row, p) && NeverEnded(row, p)
    case StageRunning => HasStarted(row, p) && NeverEnded(row, p)
    case StageInterrupted => HasStarted(row, p) && NeverEnded(row, p)
    case StageCancelled => (forall x :: HasEnded(row, p, x) ==> x == StageCancelled) && (HasStarted(row, p) ==> HasEnded(row, p, StageCancelled))
    case _ => forall x :: HasEnded(row, p, x) <==> x == status
  }

  ghost predicate InRange(row: Workflow) {
    && (forall p: nat | HasStarted(row, p) :: p < |row.stages|)
    && (forall p: nat, x | HasEnded(row, p, x) :: p < |row.stages|)
  }

  /** The log and the stages agree. */
  ghost predicate Tells(row: Workflow) {
    InRange(row) && forall p: nat | p < |row.stages| :: StageTells(row, p, row.stages[p].status)
  }

  // ---- one transaction -------------------------------------------------------------------------

  lemma LogPush(row: Workflow, next: Workflow, e: Event)
    requires next.events == row.events + [e]
    ensures forall p: nat :: HasStarted(next, p) <==> HasStarted(row, p) || e == TurnStarted(p)
    ensures forall p: nat, x :: HasEnded(next, p, x) <==> HasEnded(row, p, x) || e == TurnEnded(p, x)
  {
  }

  lemma CreateTells(draft: seq<Stage>)
    requires IsDraft(draft)
    ensures Tells(Workflow(Queued, draft, [WorkflowCreated], [Message("human", "team")]))
  {
  }

  lemma StartTells(row: Workflow, i: nat)
    requires Tells(row) && i < |row.stages| && NeverEnded(row, i)
    ensures Tells(StartStage(row, i))
  {
    LogPush(row, StartStage(row, i), TurnStarted(i));
    hide HasStarted, HasEnded;
  }

  lemma FinishTells(row: Workflow, i: nat, status: StageStatus)
    requires Tells(row) && i < |row.stages| && NeverEnded(row, i) && status in {StageCompleted, StageFailed, StageCancelled}
    ensures Tells(FinishStage(row, i, status))
  {
    LogPush(row, FinishStage(row, i, status), TurnEnded(i, status));
    hide HasStarted, HasEnded;
  }

  lemma CancelTells(row: Workflow)
    requires Tells(row)
    ensures Tells(CancelQueuedStages(row))
  {
    assert forall p: nat, x :: HasEnded(CancelQueuedStages(row), p, x) <==> HasEnded(row, p, x);
    assert forall p: nat :: HasStarted(CancelQueuedStages(row), p) <==> HasStarted(row, p);
    hide HasStarted, HasEnded;
  }

  lemma FollowUpTells(row: Workflow, message: Message, agent: AgentId)
    requires Tells(row)
    ensures Tells(AddMessageWithStage(row, message, agent))
  {
    var next := AddMessageWithStage(row, message, agent);
    LogPush(row, next, TurnQueued(|row.stages|));
    hide HasStarted, HasEnded, NextPosition;
    assert forall p: nat | p < |row.stages| :: next.stages[p] == row.stages[p];
  }

  lemma InterruptTells(row: Workflow)
    requires Tells(row)
    ensures Tells(MarkRowInterrupted(row))
  {
    assert forall p: nat, x :: HasEnded(MarkRowInterrupted(row), p, x) <==> HasEnded(row, p, x);
    assert forall p: nat :: HasStarted(MarkRowInterrupted(row), p) <==> HasStarted(row, p);
    hide HasStarted, HasEnded;
  }

  /** Neither messages nor the workflow's status belong to the log. */
  lemma SameLogTells(row: Workflow, next: Workflow)
    requires Tells(row) && next.stages == row.stages && next.events == row.events
    ensures Tells(next)
  {
    assert forall p: nat, x :: HasEnded(next, p, x) <==> HasEnded(row, p, x);
    assert forall p: nat :: HasStarted(next, p) <==> HasStarted(row, p);
    hide HasStarted, HasEnded;
  }

  // ---- every step ------------------------------------------------------------------------------

  /** A loop that has picked a stage finds no end of it in the log. */
  ghost predicate PicksFresh(s: State) {
    forall t | t in s.loops && s.loops[t].pc.Picked? && s.loops[t].id in s.rows :: NeverEnded(s.rows[s.loops[t].id], s.loops[t].pc.stage)
  }

  ghost predicate AllTell(s: State) {
    PicksFresh(s) && forall id | id in s.rows :: Tells(s.rows[id])
  }

  lemma TellsAt(row: Workflow, p: nat)
    requires Tells(row) && p < |row.stages|
    ensures StageTells(row, p, row.stages[p].status)
  {
  }

  lemma StepTells(s: State, a: Action, n: State, id: WorkflowId)
    requires Inv(s) && Stepped(s, a, n) && LoopsMatch(s) && AllTell(s) && id in s.rows
    ensures id in n.rows && Tells(n.rows[id])
  {
    hide Inv, Apply, Tells, StageTells, NeverEnded, StartStage, FinishStage, CancelQueuedStages, MarkRowInterrupted, AddMessageWithStage;
    StepRow(s, a, n, id);
    var row := s.rows[id];
    match a {
      case StageStarts(t) =>
        if s.loops[t].id == id {
          StartTells(row, s.loops[t].pc.stage);
        }
      case StageAborts(t, recorded) =>
        if s.loops[t].id == id {
          FinishTells(row, s.loops[t].pc.stage, StageFailed);
        }
      case StageEnds(t, status, ok) =>
        if s.loops[t].id == id {
          assert LoopMatches(s, t);
          RunningNeverEnded(row, s.loops[t].pc.stage);
          FinishTells(row, s.loops[t].pc.stage, status);
        }
      case CancelQueue(w) => CancelTells(row);
      case SendWrites(ok) =>
        FollowUpTells(row, Message("human", s.mutex.agent), s.mutex.agent);
        SameLogTells(row, AddMessage(row, Message("human", s.mutex.agent)));
      case Restart => InterruptTells(row);
      case _ => SameLogTells(row, n.rows[id]);
    }
  }

  lemma RunningNeverEnded(row: Workflow, p: nat)
    requires Tells(row) && p < |row.stages| && row.stages[p].status in {StageRunning, StageQueued}
    ensures NeverEnded(row, p)
  {
    TellsAt(row, p);
    hide Tells;
  }

  /** Only a loop on the stage logs its end. */
  lemma EndsLogged(s: State, a: Action, n: State, id: WorkflowId, p: nat)
    requires Inv(s) && Stepped(s, a, n) && id in s.rows && NeverEnded(s.rows[id], p)
    requires a.StageAborts? || a.StageEnds? ==> !(a.token in s.loops && s.loops[a.token].id == id && s.loops[a.token].pc.stage == p)
    ensures id in n.rows && NeverEnded(n.rows[id], p)
  {
    hide Inv, Apply, NextPosition, Participant, IsDraft, HasQueued, CanReserve, NeverEnded;
    StepRow(s, a, n, id);
    EndNotLogged(s.rows[id], n.rows[id], p);
  }

  lemma EndNotLogged(row: Workflow, next: Workflow, p: nat)
    requires NeverEnded(row, p)
    requires || next.events == row.events
             || (exists e: Event :: next.events == row.events + [e] && !(e.TurnEnded? && e.stage == p))
    ensures NeverEnded(next, p)
  {
    forall x ensures !HasEnded(next, p, x) {
      assert !HasEnded(row, p, x);
    }
  }

  lemma StepPicksFresh(s: State, a: Action, n: State, t: Token)
    requires Inv(s) && Stepped(s, a, n) && LoopsMatch(s) && AllTell(s) && t in n.loops && n.loops[t].pc.Picked?
    ensures n.loops[t].id in n.rows && NeverEnded(n.rows[n.loops[t].id], n.loops[t].pc.stage)
  {
    hide Inv, Apply, Tells, NeverEnded, FirstQueued, Participant, IsDraft, HasQueued, CanReserve;
    PickedBefore(s, a, n, t);
    var id, p := s.loops[t].id, n.loops[t].pc.stage;
    if s.loops[t].pc == n.loops[t].pc {
      StayerWaits(s, a, n, t);
      if (a.StageAborts? || a.StageEnds?) && a.token in s.loops && s.loops[a.token].id == id {
        OneLoop(s, t, a.token);
      }
    } else {
      LoadedIsQueued(s, a, id, p);
      RunningNeverEnded(s.rows[id], p);
    }
    EndsLogged(s, a, n, id, p);
  }

  lemma NewRowTells(s: State, a: Action, n: State, id: WorkflowId)
    requires Inv(s) && Stepped(s, a, n) && id in n.rows && id !in s.rows
    ensures Tells(n.rows[id])
  {
    hide Inv, Stepped, Tells;
    NewRow(s, a, n, id);
    CreateTells(s.loops[a.token].pc.draft);
  }

  lemma StepAllTell(s: State, a: Action, n: State)
    requires Inv(s) && Stepped(s, a, n) && LoopsMatch(s) && AllTell(s)
    ensures AllTell(n)
  {
    hide Inv, Stepped, LoopsMatch, Tells, NeverEnded;
    forall t | t in n.loops && n.loops[t].pc.Picked? ensures n.loops[t].id in n.rows && NeverEnded(n.rows[n.loops[t].id], n.loops[t].pc.stage) {
      StepPicksFresh(s, a, n, t);
    }
    forall id | id in n.rows ensures Tells(n.rows[id]) {
      if id in s.rows {
        StepTells(s, a, n, id);
      } else {
        NewRowTells(s, a, n, id);
      }
    }
  }

  /**
    In every state of every run, for every stage of every workflow: a queued one has never started; a
    running or interrupted one has started and not ended; a completed or failed one is logged as ended
    just so, and not otherwise; a cancelled one has not started or is logged as ended by a cancel.
  */
  lemma {:induction false} LogAgrees(states: seq<State>, actions: seq<Action>, k: nat)
    requires IsRun(states, actions) && k < |states|
    ensures AllTell(states[k])
  {
    hide Inv, Stepped, AllTell, LoopsMatch;
    if k > 0 {
      LogAgrees(states, actions, k - 1);
      AlwaysInv(states, actions, k - 1);
      AlwaysMatches(states, actions, k - 1);
      StepAllTell(states[k - 1], actions[k - 1], states[k]);
    } else {
      EmptyTells();
    }
  }

  lemma EmptyTells()
    ensures AllTell(INIT)
  {
  }
}
