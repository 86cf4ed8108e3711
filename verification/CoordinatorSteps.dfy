/** Each step of the coordinator, put together from the moves, keeps the invariant. */
module CoordinatorSteps {
  import opened Coordinator
  import opened CoordinatorInvariant
  import opened Ownership
  import opened WorkflowRows
  import R = WorkflowRows

  lemma CommitFacts(s: State, token: Token)
    requires Inv(s) && token in s.loops && s.loops[token].pc.Reserved?
    ensures s.loops[token].id !in s.rows && s.loops[token].id in s.owners.running
    ensures IsDraft(s.loops[token].pc.draft)
  {
    assert LoopOk(s, token);
  }

  lemma CommittedRest(s: State, token: Token)
    requires LoopsHaveRows(s) && RowsOk(s) && CompletedUnowned(s) && MutexOk(s) && (!s.lost ==> RunningOwned(s))
    requires token in s.loops && s.loops[token].pc.Reserved?
    requires s.loops[token].id !in s.rows && s.loops[token].id in s.owners.running
    requires RowOk(Workflow(Queued, s.loops[token].pc.draft, [WorkflowCreated], [Message("human", "team")]))
    requires IsDraft(s.loops[token].pc.draft)
    ensures var n := CreateCommitted(s, token);
            LoopsHaveRows(n) && RowsOk(n) && CompletedUnowned(n) && MutexOk(n) && (!n.lost ==> RunningOwned(n))
  {
    hide RowOk, HasQueued, IsDraft;
    var n := CreateCommitted(s, token);
    var loop := s.loops[token];
    if !n.lost {
      forall j, i: nat | j in n.rows && i < |n.rows[j].stages| && n.rows[j].stages[i].status == StageRunning ensures WaitsFor(n, j, i) {
        if j != loop.id {
          assert WaitsFor(s, j, i);
        } else {
          DraftIsQueued(loop.pc.draft, i);
        }
      }
    }
  }

  lemma CreateCommitsKeeps(s: State, token: Token)
    requires Inv(s) && token in s.loops && s.loops[token].pc.Reserved?
    ensures Inv(CreateCommitted(s, token))
  {
    Parts(s);
    CommitFacts(s, token);
    CommittedLoops(s, token);
    OwnersFrame(s, CreateCommitted(s, token));
    hide *;
    R.CreateWorkflowKeeps(s.loops[token].pc.draft);
    CommittedRest(s, token);
    Assemble(CreateCommitted(s, token));
  }

  lemma DraftIsQueued(draft: seq<Stage>, i: nat)
    requires IsDraft(draft) && i < |draft|
    ensures draft[i].status == StageQueued
  {
  }

  lemma CommittedLoops(s: State, token: Token)
    requires Inv(s) && token in s.loops && s.loops[token].pc.Reserved?
    ensures LoopsOk(CreateCommitted(s, token))
  {
    hide RowOk, HasQueued, MayStart, OwnersOk, MutexOk, RunningOwned, IsDraft;
    var n := CreateCommitted(s, token);
    assert LoopOk(s, token);
    forall t | t in n.loops ensures LoopOk(n, t) {
      assert LoopOk(s, t);
    }
  }

  lemma CreateFailsKeeps(s: State, token: Token)
    requires Inv(s) && s.mutex.Free? && token in s.loops && s.loops[token].pc.Reserved?
    ensures CreateRolledBack(s, token) == Dropped(s, token, false)
    ensures Inv(CreateRolledBack(s, token))
  {
    assert LoopOk(s, token);
    DropKeeps(s, token, false);
  }

  lemma LoadsKeeps(s: State, token: Token, ok: bool)
    requires Inv(s) && At(s, token, Top)
    ensures Inv(Goto(s, token, if ok then Scan(Row(s, token)) else Exiting))
  {
    var row := Row(s, token);
    assert RowOk(row);
    var pc := Scan(row);
    if pc.Picked? {
      FirstQueuedMayStart(row, pc.stage);
    }
    if !s.lost {
      OnlyStartedRuns(s, token);
    }
    GotoKeeps(s, token, if ok then pc else Exiting);
  }

  lemma RechecksQueueKeeps(s: State, token: Token, ok: bool)
    requires Inv(s) && At(s, token, NoneQueued) && s.mutex.Free?
    ensures Inv(QueueRechecked(s, token, ok))
  {
    if !s.lost {
      OnlyStartedRuns(s, token);
    }
    if !ok {
      GotoKeeps(s, token, Exiting);
    } else if HasQueued(Row(s, token)) {
      GotoKeeps(s, token, Top);
    } else {
      MutexKeeps(s, Completing(token));
    }
  }

  lemma CompletionFacts(s: State, token: Token)
    requires Inv(s) && token in s.loops && s.mutex == Completing(token)
    ensures At(s, token, NoneQueued) && s.loops[token].id in s.rows && Owns(s, token)
    ensures RowOk(Row(s, token)) && !HasQueued(Row(s, token))
    ensures !s.lost ==> NoneRunning(Row(s, token))
  {
    assert LoopOk(s, token);
    if !s.lost {
      OnlyStartedRuns(s, token);
    }
  }

  lemma CompletedRowReplaces(s: State, id: WorkflowId)
    requires Inv(s) && s.mutex.Free? && id in s.rows && id !in s.owners.running
    requires !HasQueued(s.rows[id]) && (!s.lost ==> NoneRunning(s.rows[id]))
    ensures Replaces(s, id, s.rows[id].(status := Completed))
  {
    var row := s.rows[id].(status := Completed);
    StaysBehindQueue(s.rows[id], row);
    assert RowOk(row);
    hide RowOk, HasQueued, OwnersOk, MutexOk;
    forall t | t in s.loops && s.loops[t].id == id ensures PcOk(row, s.loops[t].pc) {
      assert LoopOk(s, t);
    }
  }

  /** Writing `completed` and giving up the entry, all under the mutex. */
  lemma CompletesKeeps(s: State, token: Token, ok: bool)
    requires Inv(s) && token in s.loops && s.mutex == Completing(token)
    ensures Inv(CompletionWritten(s, token, ok))
  {
    hide RowOk, HasQueued, MayStart, OwnersOk, LoopsOk, RowsOk, LoopsHaveRows, CompletedUnowned, RunningOwned;
    CompletionFacts(s, token);
    var free := s.(mutex := Free);
    MutexKeeps(s, Free);
    GotoKeeps(free, token, Exiting);
    var gone := Goto(free, token, Exiting);
    DropKeeps(gone, token, true);
    var dropped := Dropped(gone, token, true);
    if ok {
      var id := s.loops[token].id;
      CompletedRowReplaces(dropped, id);
      WithRowKeeps(dropped, id, s.rows[id].(status := Completed));
      assert CompletionWritten(s, token, ok) == WithRow(dropped, id, s.rows[id].(status := Completed));
    }
  }

  lemma StageAbortsKeeps(s: State, token: Token, recorded: bool)
    requires Inv(s) && token in s.loops && s.loops[token].pc.Picked?
    ensures Inv(StageAborted(s, token, recorded))
  {
    if !s.lost {
      OnlyStartedRuns(s, token);
    }
    GotoKeeps(s, token, Errored);
    var moved := Goto(s, token, Errored);
    if recorded {
      FinishKeeps(moved, token, s.loops[token].pc.stage, StageFailed);
    }
  }

  /** Recording the end of a stage that the loop at `token` works on. */
  lemma FinishKeeps(s: State, token: Token, i: nat, status: StageStatus)
    requires Inv(s) && token in s.loops && Owns(s, token) && !s.loops[token].pc.Reserved? && !s.loops[token].pc.Picked?
    requires i < |Row(s, token).stages| && status !in {StageQueued, StageRunning}
    ensures Inv(WithRow(s, s.loops[token].id, FinishStage(Row(s, token), i, status)))
    ensures !s.lost && s.loops[token].pc in {Started(i), Errored} ==> NoneRunning(FinishStage(Row(s, token), i, status))
  {
    var id := s.loops[token].id;
    var row := FinishStage(s.rows[id], i, status);
    FinishStageKeeps(s.rows[id], i, status);
    forall j: nat | j < |row.stages| && !s.lost && row.stages[j].status == StageRunning ensures WaitsFor(s, id, j) && j != i {
      assert s.rows[id].stages[j].status == StageRunning;
    }
    forall t | t in s.loops && s.loops[t].id == id ensures PcOk(row, s.loops[t].pc) {
      assert LoopOk(s, t);
    }
    WithRowKeeps(s, id, row);
  }

  lemma StageStartsKeeps(s: State, token: Token)
    requires Inv(s) && token in s.loops && s.loops[token].pc.Picked?
    ensures Inv(StageStarted(s, token))
  {
    var id := s.loops[token].id;
    var i := s.loops[token].pc.stage;
    assert LoopOk(s, token);
    if !s.lost {
      OnlyStartedRuns(s, token);
    }
    GotoKeeps(s, token, Started(i));
    var moved := Goto(s, token, Started(i));
    StartReplaces(moved, token, i);
    WithRowKeeps(moved, id, StartStage(s.rows[id], i));
  }

  lemma StartReplaces(s: State, token: Token, i: nat)
    requires Inv(s) && At(s, token, Started(i)) && Owns(s, token) && MayStart(Row(s, token), i)
    requires !s.lost ==> NoneRunning(Row(s, token))
    ensures Replaces(s, s.loops[token].id, StartStage(Row(s, token), i))
  {
    StartStageKeeps(Row(s, token), i);
    hide RowOk, HasQueued, OwnersOk;
    var id := s.loops[token].id;
    forall t | t in s.loops && s.loops[t].id == id ensures PcOk(StartStage(s.rows[id], i), s.loops[t].pc) {
      assert LoopOk(s, t);
    }
  }

  lemma StageEndsKeeps(s: State, token: Token, status: StageStatus, ok: bool)
    requires Inv(s) && token in s.loops && s.loops[token].pc.Started? && status in {StageCompleted, StageFailed, StageCancelled}
    ensures Inv(StageEnded(s, token, status, ok))
  {
    var loop := s.loops[token];
    assert LoopOk(s, token);
    if ok {
      FinishKeeps(s, token, loop.pc.stage, status);
      var written := WithRow(s, loop.id, FinishStage(s.rows[loop.id], loop.pc.stage, status));
      GotoKeeps(written, token, if status == StageCompleted then Top else Errored);
    } else {
      LosesEnd(s);
      GotoKeeps(s.(lost := true), token, Errored);
    }
  }

  lemma LosesEnd(s: State)
    requires Inv(s)
    ensures Inv(s.(lost := true))
  {
    hide RowOk, MayStart, HasQueued;
    forall t | t in s.loops ensures LoopOk(s.(lost := true), t) {
      assert LoopOk(s, t);
    }
    OwnersFrame(s, s.(lost := true));
  }

  lemma SetStatusKeeps(s: State, id: WorkflowId, status: WorkflowStatus)
    requires Inv(s) && id in s.rows && status != Completed
    ensures Inv(s.(rows := SetWorkflowStatus(s.rows, id, status)))
  {
    var row := s.rows[id].(status := status);
    StaysBehindQueue(s.rows[id], row);
    SameStagesReplace(s, id, row);
  }

  /** A version of the row that keeps stages and starts owes nobody anything. */
  lemma SameStagesReplace(s: State, id: WorkflowId, row: Workflow)
    requires Inv(s) && id in s.rows && RowOk(row)
    requires row.stages == s.rows[id].stages && row.events == s.rows[id].events
    requires row.status == Completed ==> s.rows[id].status == Completed
    ensures Inv(WithRow(s, id, row))
  {
    forall t | t in s.loops && s.loops[t].id == id ensures PcOk(row, s.loops[t].pc) {
      assert LoopOk(s, t);
    }
    WithRowKeeps(s, id, row);
  }

  lemma MarksFailedKeeps(s: State, token: Token, ok: bool)
    requires Inv(s) && At(s, token, Failing)
    ensures Inv(FailureMarked(s, token, ok))
  {
    if !s.lost {
      OnlyStartedRuns(s, token);
    }
    GotoKeeps(s, token, Exiting);
    if ok {
      SetStatusKeeps(Goto(s, token, Exiting), s.loops[token].id, Failed);
    }
  }

  lemma CancelQueueKeeps(s: State, id: WorkflowId)
    requires Inv(s) && id in s.rows
    ensures Inv(WithRow(s, id, CancelQueuedStages(s.rows[id])))
  {
    var row := CancelQueuedStages(s.rows[id]);
    CancelQueuedStagesKeeps(s.rows[id]);
    forall t | t in s.loops && s.loops[t].id == id ensures PcOk(row, s.loops[t].pc) {
      assert LoopOk(s, t);
    }
    WithRowKeeps(s, id, row);
  }

  lemma CompletedHasNoTurn(s: State, id: WorkflowId)
    requires Inv(s) && id in s.rows && s.rows[id].status == Completed
    ensures !HasQueued(s.rows[id])
  {
  }

  lemma SendReadsKeeps(s: State, id: WorkflowId, agent: AgentId, workspace: Workspace)
    requires Inv(s) && Enabled(s, SendReads(id, agent, workspace))
    ensures Inv(SendRead(s, id, agent, workspace))
  {
    hide RowOk, MayStart;
    assert OwnersOk(s);
    var turn := TurnOf(s.rows[id], agent);
    if s.rows[id].status == Completed {
      CompletedHasNoTurn(s, id);
    }
    MutexKeeps(s, Sending(id, agent, workspace, id !in s.owners.running, turn, false));
  }

  /** With the mutex taken off and put back, a follow-up turn may join the queue. */
  lemma FollowUpKeeps(s: State, id: WorkflowId, agent: AgentId)
    requires Inv(s) && s.mutex.Free? && id in s.rows
    ensures Inv(WithRow(s, id, AddMessageWithStage(s.rows[id], Message("human", agent), agent)))
  {
    hide *;
    FollowUpReplaces(s, id, agent);
    WithRowKeeps(s, id, AddMessageWithStage(s.rows[id], Message("human", agent), agent));
  }

  lemma FollowUpRow(s: State, id: WorkflowId, agent: AgentId)
    requires Inv(s) && id in s.rows
    ensures RowOk(s.rows[id])
    ensures forall t | t in s.loops && s.loops[t].id == id :: PcOk(AddMessageWithStage(s.rows[id], Message("human", agent), agent), s.loops[t].pc)
    ensures !s.lost ==> forall i: nat | i < |s.rows[id].stages| && s.rows[id].stages[i].status == StageRunning :: WaitsFor(s, id, i)
  {
    hide RowOk, OwnersOk, MutexOk, HasQueued, NextPosition, Revived;
    forall t | t in s.loops && s.loops[t].id == id ensures PcOk(AddMessageWithStage(s.rows[id], Message("human", agent), agent), s.loops[t].pc) {
      assert LoopOk(s, t);
    }
  }

  lemma FollowUpReplaces(s: State, id: WorkflowId, agent: AgentId)
    requires Inv(s) && s.mutex.Free? && id in s.rows
    ensures Replaces(s, id, AddMessageWithStage(s.rows[id], Message("human", agent), agent))
  {
    hide Inv, RowOk, MayStart, WaitsFor, PcOk, NextPosition;
    FollowUpRow(s, id, agent);
    AddMessageWithStageKeeps(s.rows[id], Message("human", agent), agent);
  }

  lemma SendWritesToTurn(s: State)
    requires Inv(s) && s.mutex.Sending? && !s.mutex.committed && s.mutex.turn.QueuedTurn?
    ensures Inv(SendWritten(s, true))
  {
    var m := s.mutex;
    var before := s.rows[m.id];
    var row := AddMessage(before, Message("human", m.agent));
    assert RowOk(before) && RowOk(row);
    hide RowOk, OwnersOk, LoopsOk, RowsOk, LoopsHaveRows, CompletedUnowned, RunningOwned;
    SameStagesReplace(s, m.id, row);
    MutexKeeps(WithRow(s, m.id, row), m.(committed := true));
  }

  lemma SendWritesNewTurn(s: State)
    requires Inv(s) && s.mutex.Sending? && !s.mutex.committed && s.mutex.turn.NoTurn?
    ensures Inv(SendWritten(s, true))
  {
    var m := s.mutex;
    var before := s.rows[m.id];
    hide RowOk, OwnersOk, LoopsOk, RowsOk, LoopsHaveRows, CompletedUnowned, RunningOwned, AddMessageWithStage;
    MutexKeeps(s, Free);
    FollowUpKeeps(s.(mutex := Free), m.id, m.agent);
    var row := AddMessageWithStage(before, Message("human", m.agent), m.agent);
    MutexKeeps(WithRow(s.(mutex := Free), m.id, row), m.(committed := true, turn := QueuedTurn(|before.stages|)));
  }

  lemma SendWritesKeeps(s: State, ok: bool)
    requires Inv(s) && s.mutex.Sending? && !s.mutex.committed
    ensures Inv(SendWritten(s, ok))
  {
    if !ok {
      MutexKeeps(s, Free);
    } else {
      hide Inv, SendWritten;
      if s.mutex.turn.QueuedTurn? {
        SendWritesToTurn(s);
      } else {
        SendWritesNewTurn(s);
      }
    }
  }

  lemma SendReturnsKeeps(s: State)
    requires Inv(s) && s.mutex.Sending? && s.mutex.committed
    ensures Inv(SendReturned(s))
  {
    var m := s.mutex;
    MutexKeeps(s, Free);
    if m.needsStart {
      ClaimKeeps(s.(mutex := Free), m.id, m.workspace, Top);
    }
  }

  lemma CancelsKeep(s: State, tokens: set<Token>)
    requires Inv(s)
    ensures Inv(ContextsCancelled(s, tokens))
  {
    hide RowOk, MayStart, HasQueued;
    var n := ContextsCancelled(s, tokens);
    forall t | t in s.loops ensures LoopOk(n, t) {
      assert LoopOk(s, t);
    }
    OwnersFrame(s, n);
    if !s.lost {
      RunningFrame(s, n);
    }
  }

  lemma RestartKeeps(s: State)
    requires Inv(s)
    ensures Inv(Restarted(s))
  {
    var n := Restarted(s);
    forall id | id in n.rows ensures RowOk(n.rows[id]) && NoneRunning(n.rows[id]) {
      MarkInterruptedKeeps(s.rows[id]);
    }
  }

  /** A loop that is not waiting for a stage may leave for any point that asks nothing of its row. */
  lemma LeavesKeep(s: State, token: Token, from: Pc, to: Pc)
    requires Inv(s) && At(s, token, from) && from in {Top, Errored} && to in {Exiting, Failing}
    ensures Inv(Goto(s, token, to))
  {
    hide Goto, RowOk, OwnersOk, RowsOk, CompletedUnowned, MutexOk, RunningOwned;
    LeaverHasRow(s, token);
    if !s.lost {
      OnlyStartedRuns(s, token);
    }
    hide Inv;
    GotoKeeps(s, token, to);
  }

  lemma LeaverHasRow(s: State, token: Token)
    requires Inv(s) && token in s.loops && !s.loops[token].pc.Reserved?
    ensures s.loops[token].id in s.rows
    ensures s.loops[token].pc in {Top, Errored} ==> s.mutex != Completing(token)
  {
    assert LoopOk(s, token);
    assert MutexOk(s);
    hide RowOk, OwnersOk, RowsOk, RunningOwned, HasQueued;
  }

  lemma PostsKeeps(s: State, id: WorkflowId, message: Message)
    requires Inv(s) && id in s.rows
    ensures Inv(WithRow(s, id, AddMessage(s.rows[id], message)))
  {
    assert RowOk(AddMessage(s.rows[id], message));
    hide Inv, RowOk;
    SameStagesReplace(s, id, AddMessage(s.rows[id], message));
  }

  /** The invariant is inductive: every step of every thread, crash or failing write keeps it. */
  lemma StepKeeps(s: State, a: Action)
    requires Inv(s) && Enabled(s, a)
    ensures Inv(Apply(s, a))
  {
    hide Inv, LoopsHaveRows, CanReserve, IsDraft, Participant,
         Claimed, CreateCommitted, CreateRolledBack, QueueRechecked, CompletionWritten, StageAborted, StageStarted, StageEnded,
         FailureMarked, Dropped, ContextsCancelled, SendRead, SendWritten, SendReturned, Restarted, Goto, WithRow, AddMessage,
         CancelQueuedStages, SetWorkflowStatus, Scan;
    match a
    case Reserve(id, workspace, draft) => ClaimKeeps(s, id, workspace, Pc.Reserved(draft));
    case CreateCommits(token) => CreateCommitsKeeps(s, token);
    case CreateFails(token) => CreateFailsKeeps(s, token);
    case SeesCancel(token) => LeavesKeep(s, token, Top, Exiting);
    case Loads(token, ok) => LoadsKeeps(s, token, ok);
    case RechecksQueue(token, ok) => RechecksQueueKeeps(s, token, ok);
    case Completes(token, ok) => CompletesKeeps(s, token, ok);
    case StageAborts(token, recorded) => StageAbortsKeeps(s, token, recorded);
    case StageStarts(token) => StageStartsKeeps(s, token);
    case StageEnds(token, status, ok) => StageEndsKeeps(s, token, status, ok);
    case AfterError(token) => LeavesKeep(s, token, Errored, if token in s.cancelled then Exiting else Failing);
    case MarksFailed(token, ok) => MarksFailedKeeps(s, token, ok);
    case Releases(token) => DropKeeps(s, token, false);
    case CancelContext(id) => CancelsKeep(s, if id in s.owners.running then {s.owners.running[id]} else {});
    case CancelQueue(id) => CancelQueueKeeps(s, id);
    case CancelStatus(id) => SetStatusKeeps(s, id, Cancelled);
    case SendReads(id, agent, workspace) => SendReadsKeeps(s, id, agent, workspace);
    case SendWrites(ok) => SendWritesKeeps(s, ok);
    case SendReturns => SendReturnsKeeps(s);
    case Posts(id, message) => PostsKeeps(s, id, message);
    case Shutdown => CancelsKeep(s, s.owners.running.Values);
    case Restart => RestartKeeps(s);
  }
}
