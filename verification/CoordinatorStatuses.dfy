/** Where the status of a stage and of a workflow come from, over whole runs. */
module CoordinatorStatuses {
  import opened Coordinator
  import opened CoordinatorDrain
  import opened CoordinatorRuns
  import opened CoordinatorSteps
  import opened Ownership
  import opened WorkflowRows
  import opened Wrappers

  ghost predicate HasStage(s: State, id: WorkflowId, p: nat) {
    id in s.rows && p < |s.rows[id].stages|
  }

  ghost function StatusAt(s: State, id: WorkflowId, p: nat): StageStatus
    requires HasStage(s, id, p)
  {
    s.rows[id].stages[p].status
  }

  /** Loop `token` works for workflow `id` and stands at `pc`. */
  ghost predicate Stands(s: State, token: Token, id: WorkflowId, pc: Pc) {
    token in s.loops && s.loops[token].id == id && s.loops[token].pc == pc
  }

  /** What the step writes as the status of a stage, if it writes one. */
  ghost function Records(s: State, a: Action, id: WorkflowId, p: nat): Option<StageStatus>
    requires HasStage(s, id, p)
  {
    match a
    case StageStarts(token) => if Stands(s, token, id, Picked(p)) then Some(StageRunning) else None
    case StageAborts(token, recorded) => if recorded && Stands(s, token, id, Picked(p)) then Some(StageFailed) else None
    case StageEnds(token, status, ok) => if ok && Stands(s, token, id, Started(p)) then Some(status) else None
    case CancelQueue(w) => if w == id && StatusAt(s, id, p) == StageQueued then Some(StageCancelled) else None
    case Restart => if StatusAt(s, id, p) == StageRunning then Some(StageInterrupted) else None
    case _ => None
  }

  // ---- one step --------------------------------------------------------------------------------

  /** A stage changes its status exactly by what the step writes for it. */
  lemma StepStatus(s: State, a: Action, n: State, id: WorkflowId, p: nat)
    requires Inv(s) && Stepped(s, a, n) && HasStage(s, id, p)
    ensures HasStage(n, id, p)
    ensures StatusAt(n, id, p) == if Records(s, a, id, p).Some? then Records(s, a, id, p).value else StatusAt(s, id, p)
  {
    hide Inv, Apply, NextPosition, Revived, Participant, IsDraft, HasQueued, CanReserve;
    StepRow(s, a, n, id);
  }

  /** A stage that a step brings into the store is queued. */
  lemma NewStageIsQueued(s: State, a: Action, n: State, id: WorkflowId, p: nat)
    requires Inv(s) && Stepped(s, a, n) && HasStage(n, id, p) && !HasStage(s, id, p)
    ensures StatusAt(n, id, p) == StageQueued
  {
    hide Inv, NextPosition, Revived, Participant, HasQueued, CanReserve;
    if id in s.rows {
      StepRow(s, a, n, id);
      hide Apply;
    } else {
      NewRow(s, a, n, id);
    }
  }

  /** A row appears only by the commit of a `Create`, and then it is its draft. */
  lemma NewRow(s: State, a: Action, n: State, id: WorkflowId)
    requires Inv(s) && Stepped(s, a, n) && id in n.rows && id !in s.rows
    ensures a.CreateCommits? && a.token in s.loops && s.loops[a.token].id == id && s.loops[a.token].pc.Reserved?
    ensures IsDraft(s.loops[a.token].pc.draft)
    ensures n.rows[id] == Workflow(Queued, s.loops[a.token].pc.draft, [WorkflowCreated], [Message("human", "team")])
  {
    hide Inv, Participant, HasQueued, CanReserve, Claim, Release, Rollback, TurnOf, Scan, IsDraft, StartStage, FinishStage,
         CancelQueuedStages, AddMessage, AddMessageWithStage, MarkRowInterrupted;
    if a.CreateCommits? {
      CommitFacts(s, a.token);
    }
  }

  /** What a step makes of a workflow's own status. */
  lemma StepWorkflowStatus(s: State, a: Action, n: State, id: WorkflowId)
    requires Inv(s) && Stepped(s, a, n) && id in s.rows
    ensures id in n.rows
    ensures var was, now := s.rows[id].status, n.rows[id].status;
            match a
            case StageStarts(token) => now == if s.loops[token].id == id then Running else was
            case Completes(token, ok) => now == if ok && s.loops[token].id == id then Completed else was
            case MarksFailed(token, ok) => now == if ok && s.loops[token].id == id then Failed else was
            case CancelStatus(w) => now == if w == id then Cancelled else was
            case SendWrites(ok) =>
              now == if ok && s.mutex.id == id && s.mutex.turn.NoTurn? && was in {Completed, Failed, Cancelled, Interrupted} then Queued else was
            case Restart => now == if was in {Running, Queued} then Interrupted else was
            case _ => now == was
  {
    hide Inv, Apply, NextPosition, LoopsHaveRows, Participant, IsDraft, HasQueued, CanReserve;
    StepRow(s, a, n, id);
  }

  /** A successful message and an entry posted to the room each add exactly their message; nothing else touches the room. */
  lemma StepMessages(s: State, a: Action, n: State, id: WorkflowId)
    requires Inv(s) && Stepped(s, a, n) && id in s.rows
    ensures id in n.rows
    ensures n.rows[id].messages == s.rows[id].messages +
              match a
              case Posts(w, message) => if w == id then [message] else []
              case SendWrites(ok) => if ok && s.mutex.id == id then [Message("human", s.mutex.agent)] else []
              case _ => []
  {
    hide Inv, Apply, NextPosition, LoopsHaveRows, Participant, IsDraft, HasQueued, CanReserve;
    StepRow(s, a, n, id);
  }

  // ---- whole runs ------------------------------------------------------------------------------

  /** Step `k` writes `status` for the stage. */
  ghost predicate RecordsAt(states: seq<State>, actions: seq<Action>, k: nat, id: WorkflowId, p: nat, status: StageStatus)
    requires k < |actions| < |states|
  {
    HasStage(states[k], id, p) && Records(states[k], actions[k], id, p) == Some(status)
  }

  ghost predicate Quiet(states: seq<State>, actions: seq<Action>, k: nat, id: WorkflowId, p: nat)
    requires k < |actions| < |states|
  {
    HasStage(states[k], id, p) ==> Records(states[k], actions[k], id, p).None?
  }

  /** The last thing written before state `j`, or nothing yet. */
  ghost predicate LastWritten(states: seq<State>, actions: seq<Action>, j: nat, id: WorkflowId, p: nat, status: StageStatus)
    requires j <= |actions| < |states|
  {
    || (status == StageQueued && forall k | 0 <= k < j :: Quiet(states, actions, k, id, p))
    || (exists c :: 0 <= c < j && RecordsAt(states, actions, c, id, p, status) && forall k | c < k < j :: Quiet(states, actions, k, id, p))
  }

  /** In every state of every run, the status of a stage is the last one a step wrote for it, or queued. */
  lemma {:induction false} StatusIsLastWritten(states: seq<State>, actions: seq<Action>, j: nat, id: WorkflowId, p: nat)
    requires IsRun(states, actions) && j < |states| && HasStage(states[j], id, p)
    ensures LastWritten(states, actions, j, id, p, StatusAt(states[j], id, p))
  {
    hide Inv, Stepped, Records, HasStage, StatusAt;
    if j == 0 {
      NothingAtFirst(states, actions, id, p);
    } else {
      AlwaysInv(states, actions, j - 1);
      if HasStage(states[j - 1], id, p) {
        StatusIsLastWritten(states, actions, j - 1, id, p);
        StepStatus(states[j - 1], actions[j - 1], states[j], id, p);
        if Records(states[j - 1], actions[j - 1], id, p).Some? {
          assert RecordsAt(states, actions, j - 1, id, p, StatusAt(states[j], id, p));
        } else {
          assert Quiet(states, actions, j - 1, id, p);
        }
      } else {
        NewStageIsQueued(states[j - 1], actions[j - 1], states[j], id, p);
        NeverBefore(states, actions, j - 1, id, p);
      }
    }
  }

  lemma NothingAtFirst(states: seq<State>, actions: seq<Action>, id: WorkflowId, p: nat)
    requires IsRun(states, actions)
    ensures !HasStage(states[0], id, p)
  {
    hide Stepped;
  }

  /** A stage that is not there yet has never been there. */
  lemma NeverBefore(states: seq<State>, actions: seq<Action>, j: nat, id: WorkflowId, p: nat)
    requires IsRun(states, actions) && j < |states| && !HasStage(states[j], id, p)
    ensures forall k | 0 <= k <= j :: !HasStage(states[k], id, p)
  {
    hide Stepped;
    forall k | 0 <= k <= j ensures !HasStage(states[k], id, p) {
      if id in states[k].rows {
        RunGrows(states, actions, k, j, id);
      }
    }
  }

  // ---- what is final ---------------------------------------------------------------------------

  /** A stage a loop is about to start has not run; one that it has started is running. */
  ghost predicate LoopsMatch(s: State) {
    forall t | t in s.loops :: LoopMatches(s, t)
  }

  ghost predicate LoopMatches(s: State, t: Token)
    requires t in s.loops
  {
    var id, pc := s.loops[t].id, s.loops[t].pc;
    && (pc.Picked? ==> HasStage(s, id, pc.stage) && StatusAt(s, id, pc.stage) in {StageQueued, StageCancelled})
    && (pc.Started? ==> HasStage(s, id, pc.stage) && StatusAt(s, id, pc.stage) == StageRunning)
  }

  /** Where a loop that has picked a stage stood before the step. */
  lemma PickedBefore(s: State, a: Action, n: State, t: Token)
    requires Stepped(s, a, n) && t in n.loops && n.loops[t].pc.Picked?
    ensures t in s.loops && s.loops[t].id == n.loops[t].id && s.loops[t].id in s.rows && a != Restart
    ensures s.loops[t].pc == n.loops[t].pc || (a == Loads(t, true) && FirstQueued(s.rows[s.loops[t].id], n.loops[t].pc.stage))
  {
    hide Participant, IsDraft, TurnOf, HasQueued, CanReserve, Claim, Release, Rollback, StartStage, FinishStage, CancelQueuedStages,
         AddMessage, AddMessageWithStage, MarkInterrupted, FirstQueued;
  }

  /** A loop that stays where it was has not stepped. */
  lemma StayerWaits(s: State, a: Action, n: State, t: Token)
    requires Stepped(s, a, n) && t in s.loops && t in n.loops && n.loops[t].pc == s.loops[t].pc
    requires s.loops[t].pc.Picked? || s.loops[t].pc.Started?
    ensures a != StageStarts(t) && a != Restart && (a.StageEnds? || a.StageAborts? || a.Loads? ==> a.token != t)
  {
    hide LoopsHaveRows, Participant, IsDraft, TurnOf, HasQueued, CanReserve, Claim, Release, Rollback, StartStage, FinishStage,
         CancelQueuedStages, AddMessage, AddMessageWithStage, MarkInterrupted, FirstQueued, Claimed, SendRead, SendWritten;
  }

  /** Two loops on stages of one workflow are one loop. */
  lemma OneLoop(s: State, t: Token, u: Token)
    requires Inv(s) && t in s.loops && u in s.loops && s.loops[t].id == s.loops[u].id && s.loops[t].pc != Exiting && s.loops[u].pc != Exiting
    ensures t == u
  {
    hide Inv;
    WorksAlone(s, t);
    WorksAlone(s, u);
  }

  /** While its loop waits on a stage, only a cancel writes to it, and only before it has started. */
  lemma WaitedOn(s: State, a: Action, t: Token)
    requires Inv(s) && t in s.loops && (s.loops[t].pc.Picked? || s.loops[t].pc.Started?) && LoopMatches(s, t)
    requires a != StageStarts(t) && a != Restart && (a.StageEnds? || a.StageAborts? ==> a.token != t)
    ensures var id, p := s.loops[t].id, s.loops[t].pc.stage;
            Records(s, a, id, p) == if a == CancelQueue(id) && StatusAt(s, id, p) == StageQueued then Some(StageCancelled) else None
  {
    hide Inv;
    if (a.StageStarts? || a.StageAborts? || a.StageEnds?) && a.token in s.loops && s.loops[a.token].id == s.loops[t].id
      && s.loops[a.token].pc != Exiting {
      OneLoop(s, t, a.token);
    }
  }

  lemma StepMatches(s: State, a: Action, n: State, t: Token)
    requires Inv(s) && Stepped(s, a, n) && LoopsMatch(s) && t in n.loops
    ensures LoopMatches(n, t)
  {
    hide Inv, Stepped, StatusAt, Records, HasStage, FirstQueued;
    var pc := n.loops[t].pc;
    if pc.Picked? {
      PickedBefore(s, a, n, t);
      assert LoopMatches(s, t);
      if s.loops[t].pc == pc {
        StayerWaits(s, a, n, t);
        WaitedOn(s, a, t);
      } else {
        LoadedIsQueued(s, a, s.loops[t].id, pc.stage);
      }
      StepStatus(s, a, n, s.loops[t].id, pc.stage);
    } else if pc.Started? {
      LoopBefore(s, a, n, t);
      assert LoopMatches(s, t);
      if s.loops[t].pc == pc {
        StayerWaits(s, a, n, t);
        WaitedOn(s, a, t);
      } else {
        StartedIsRecorded(s, t, pc.stage);
      }
      StepStatus(s, a, n, s.loops[t].id, pc.stage);
    }
  }

  lemma LoadedIsQueued(s: State, a: Action, id: WorkflowId, i: nat)
    requires id in s.rows && FirstQueued(s.rows[id], i) && a.Loads?
    ensures HasStage(s, id, i) && StatusAt(s, id, i) == StageQueued && Records(s, a, id, i).None?
  {
  }

  lemma StartedIsRecorded(s: State, t: Token, i: nat)
    requires t in s.loops && s.loops[t].pc == Picked(i) && HasStage(s, s.loops[t].id, i)
    ensures Records(s, StageStarts(t), s.loops[t].id, i) == Some(StageRunning)
  {
  }

  lemma {:induction false} AlwaysMatches(states: seq<State>, actions: seq<Action>, k: nat)
    requires IsRun(states, actions) && k < |states|
    ensures LoopsMatch(states[k])
  {
    hide Stepped, Inv, LoopMatches;
    if k > 0 {
      AlwaysMatches(states, actions, k - 1);
      AlwaysInv(states, actions, k - 1);
      forall t | t in states[k].loops ensures LoopMatches(states[k], t) {
        StepMatches(states[k - 1], actions[k - 1], states[k], t);
      }
    }
  }

  predicate IsFinal(status: StageStatus) {
    status == StageCompleted || status == StageFailed || status == StageInterrupted
  }

  lemma FinalIsLeftAlone(s: State, a: Action, id: WorkflowId, p: nat)
    requires LoopsMatch(s) && HasStage(s, id, p) && IsFinal(StatusAt(s, id, p))
    ensures Records(s, a, id, p).None?
  {
    if (a.StageStarts? || a.StageAborts? || a.StageEnds?) && a.token in s.loops {
      assert LoopMatches(s, a.token);
    }
  }

  lemma {:induction false} FinalStays(states: seq<State>, actions: seq<Action>, i: nat, j: nat, id: WorkflowId, p: nat)
    requires IsRun(states, actions) && i <= j < |states| && HasStage(states[i], id, p) && IsFinal(StatusAt(states[i], id, p))
    ensures HasStage(states[j], id, p) && StatusAt(states[j], id, p) == StatusAt(states[i], id, p)
    decreases j
  {
    hide Stepped, Inv, Records, HasStage, StatusAt, LoopsMatch;
    if i < j {
      FinalStays(states, actions, i, j - 1, id, p);
      AlwaysInv(states, actions, j - 1);
      AlwaysMatches(states, actions, j - 1);
      FinalIsLeftAlone(states[j - 1], actions[j - 1], id, p);
      StepStatus(states[j - 1], actions[j - 1], states[j], id, p);
    }
  }

  /** A stage has a final status iff some step of the run wrote exactly that. */
  lemma FinalIff(states: seq<State>, actions: seq<Action>, j: nat, id: WorkflowId, p: nat, status: StageStatus)
    requires IsRun(states, actions) && j < |states| && HasStage(states[j], id, p) && IsFinal(status)
    ensures StatusAt(states[j], id, p) == status <==> exists k :: 0 <= k < j && RecordsAt(states, actions, k, id, p, status)
  {
    hide Inv, Records, HasStage, StatusAt;
    StatusIsLastWritten(states, actions, j, id, p);
    if k :| 0 <= k < j && RecordsAt(states, actions, k, id, p, status) {
      AlwaysInv(states, actions, k);
      assert Stepped(states[k], actions[k], states[k + 1]);
      hide Stepped;
      StepStatus(states[k], actions[k], states[k + 1], id, p);
      FinalStays(states, actions, k + 1, j, id, p);
    }
  }

  /** Interrupted: exactly the stages that were running at a restart. */
  lemma InterruptedIff(states: seq<State>, actions: seq<Action>, j: nat, id: WorkflowId, p: nat)
    requires IsRun(states, actions) && j < |states| && HasStage(states[j], id, p)
    ensures StatusAt(states[j], id, p) == StageInterrupted <==>
            exists k :: 0 <= k < j && actions[k] == Restart && HasStage(states[k], id, p) && StatusAt(states[k], id, p) == StageRunning
  {
    FinalIff(states, actions, j, id, p, StageInterrupted);
    hide Inv, IsRun;
    forall k | 0 <= k < j
      ensures RecordsAt(states, actions, k, id, p, StageInterrupted) <==>
              actions[k] == Restart && HasStage(states[k], id, p) && StatusAt(states[k], id, p) == StageRunning
    {
      InterruptsIff(states, actions, k, id, p);
    }
  }

  lemma InterruptsIff(states: seq<State>, actions: seq<Action>, k: nat, id: WorkflowId, p: nat)
    requires IsRun(states, actions) && k < |actions|
    ensures RecordsAt(states, actions, k, id, p, StageInterrupted) <==>
            actions[k] == Restart && HasStage(states[k], id, p) && StatusAt(states[k], id, p) == StageRunning
  {
    assert Stepped(states[k], actions[k], states[k + 1]);
    hide Apply, LoopsHaveRows;
  }

  /** Completed: exactly the stages whose own loop had started them and recorded a success. */
  lemma CompletedIff(states: seq<State>, actions: seq<Action>, j: nat, id: WorkflowId, p: nat)
    requires IsRun(states, actions) && j < |states| && HasStage(states[j], id, p)
    ensures StatusAt(states[j], id, p) == StageCompleted <==>
            exists k, token :: 0 <= k < j && actions[k] == StageEnds(token, StageCompleted, true) && Stands(states[k], token, id, Started(p))
  {
    FinalIff(states, actions, j, id, p, StageCompleted);
    hide Inv, IsRun, Stepped;
    forall k | 0 <= k < j
      ensures RecordsAt(states, actions, k, id, p, StageCompleted) <==>
              exists token :: actions[k] == StageEnds(token, StageCompleted, true) && Stands(states[k], token, id, Started(p))
    {
      CompletesIff(states, actions, k, id, p);
    }
  }

  lemma CompletesIff(states: seq<State>, actions: seq<Action>, k: nat, id: WorkflowId, p: nat)
    requires IsRun(states, actions) && k < |actions|
    ensures RecordsAt(states, actions, k, id, p, StageCompleted) <==>
            exists token :: actions[k] == StageEnds(token, StageCompleted, true) && Stands(states[k], token, id, Started(p))
  {
    AlwaysMatches(states, actions, k);
    hide IsRun;
    if token :| actions[k] == StageEnds(token, StageCompleted, true) && Stands(states[k], token, id, Started(p)) {
      assert LoopMatches(states[k], token);
    }
    if RecordsAt(states, actions, k, id, p, StageCompleted) {
      assert actions[k].StageEnds?;
    }
  }

  // ---- whose context is cancelled --------------------------------------------------------------

  /** The step cancels the context of the loop: as the owner of the named workflow, or with all owners. */
  ghost predicate Withdraws(s: State, a: Action, token: Token) {
    || (a.CancelContext? && a.id in s.owners.running && s.owners.running[a.id] == token)
    || (a == Shutdown && exists id :: id in s.owners.running && s.owners.running[id] == token)
  }

  lemma StepCancelled(s: State, a: Action, n: State, token: Token)
    requires Stepped(s, a, n)
    ensures token in n.cancelled <==> a != Restart && (token in s.cancelled || Withdraws(s, a, token))
  {
    hide LoopsHaveRows, Participant, IsDraft, TurnOf, HasQueued, CanReserve, Claim, Release, Rollback, StartStage, FinishStage,
         CancelQueuedStages, AddMessage, AddMessageWithStage, MarkInterrupted, FirstQueued, Scan;
  }

  ghost predicate WithdrawnAt(states: seq<State>, actions: seq<Action>, k: nat, j: nat, token: Token)
    requires k < j <= |actions| < |states|
  {
    Withdraws(states[k], actions[k], token) && forall m | k <= m < j :: actions[m] != Restart
  }

  /** Only the loops that owned their workflow when a cancel or the shutdown came have a cancelled context. */
  lemma {:induction false} CancelledIff(states: seq<State>, actions: seq<Action>, j: nat, token: Token)
    requires IsRun(states, actions) && j < |states|
    ensures token in states[j].cancelled <==> exists k: nat :: k < j && WithdrawnAt(states, actions, k, j, token)
  {
    hide Stepped, Withdraws;
    if j > 0 {
      CancelledIff(states, actions, j - 1, token);
      assert Stepped(states[j - 1], actions[j - 1], states[j]);
      StepCancelled(states[j - 1], actions[j - 1], states[j], token);
      hide Stepped, IsRun;
      var i := j - 1;
      if k: nat :| k < i && WithdrawnAt(states, actions, k, i, token) {
        assert actions[i] != Restart ==> WithdrawnAt(states, actions, k, j, token);
      }
      if k: nat :| k < j && WithdrawnAt(states, actions, k, j, token) {
        assert actions[i] != Restart && (k < i ==> WithdrawnAt(states, actions, k, i, token));
      }
      assert Withdraws(states[i], actions[i], token) && actions[i] != Restart ==> WithdrawnAt(states, actions, i, j, token);
    }
  }
}
