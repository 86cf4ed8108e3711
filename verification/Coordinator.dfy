/**
  The AI workflow coordinator (coordinator/manager.go) as interleaved atomic steps.

  Each store transaction is one step, and so is each stretch of a lock section that touches only
  memory. Where a lock section reads the store and later writes it (the final empty-queue check,
  `sendAgentMessage`), the two are separate steps with the mutex held in between, so that
  transactions of threads that do not take the mutex can land inside the section. Everything the
  environment decides (fresh ids, workspace keys, exits, failing writes) is a parameter of the step.
*/
module Coordinator {
  import opened Ownership
  import opened WorkflowRows
  import R = WorkflowRows

  /** Where a `Create` call and the run loop it spawns stand. */
  datatype Pc =
    | Reserved(draft: seq<Stage>)  // owns its entry, row not committed yet
    | Top                          // head of the loop in `run`
    | Picked(stage: nat)           // inside `runStage`, before StartStage
    | Started(stage: nat)          // StartStage committed
    | NoneQueued                   // found no queued stage, wants the mutex
    | Errored                      // `runStage` returned an error
    | Failing                      // about to write status failed
    | Exiting                      // deferred cleanup left to do

  datatype Loop = Loop(id: WorkflowId, workspace: Workspace, pc: Pc)

  /** A queued turn the message relies on: seen by the read, or inserted by the write. */
  datatype Turn = NoTurn | QueuedTurn(stage: nat)

  datatype Mutex =
    | Free
    | Completing(token: Token)
    | Sending(id: WorkflowId, agent: AgentId, workspace: Workspace, needsStart: bool, turn: Turn, committed: bool)

  /** `lost` records that the write ending a started stage failed since the last restart. */
  datatype State = State(
    rows: Rows,
    owners: Owners,
    loops: map<Token, Loop>,
    cancelled: set<Token>,
    mutex: Mutex,
    next: Token,
    lost: bool)

  const INIT := State(map[], Owners(map[], map[]), map[], {}, Free, 0, false)

  datatype Action =
    | Reserve(id: WorkflowId, workspace: Workspace, draft: seq<Stage>)
    | CreateCommits(token: Token)
    | CreateFails(token: Token)
    | SeesCancel(token: Token)
    | Loads(token: Token, ok: bool)
    | RechecksQueue(token: Token, ok: bool)
    | Completes(token: Token, ok: bool)
    | StageAborts(token: Token, recorded: bool)
    | StageStarts(token: Token)
    | StageEnds(token: Token, status: StageStatus, ok: bool)
    | AfterError(token: Token)
    | MarksFailed(token: Token, ok: bool)
    | Releases(token: Token)
    | CancelContext(id: WorkflowId)
    | CancelQueue(id: WorkflowId)
    | CancelStatus(id: WorkflowId)
    | SendReads(id: WorkflowId, agent: AgentId, workspace: Workspace)
    | SendWrites(ok: bool)
    | SendReturns
    | Posts(id: WorkflowId, message: Message)
    | Shutdown
    | Restart

  ghost predicate At(s: State, token: Token, pc: Pc) {
    token in s.loops && s.loops[token].pc == pc
  }

  ghost function Row(s: State, token: Token): Workflow
    requires token in s.loops && s.loops[token].id in s.rows
  {
    s.rows[s.loops[token].id]
  }

  ghost predicate Participant(row: Workflow, agent: AgentId) {
    exists i :: 0 <= i < |row.stages| && row.stages[i].agent == agent
  }

  ghost predicate Enabled(s: State, a: Action) {
    match a
    case Reserve(id, workspace, draft) =>
      s.mutex.Free? && id !in s.rows && id !in s.owners.running && IsDraft(draft) && CanReserve(s.owners, workspace)
    case CreateCommits(token) =>
      token in s.loops && s.loops[token].pc.Reserved?
    case CreateFails(token) =>
      s.mutex.Free? && token in s.loops && s.loops[token].pc.Reserved?
    case SeesCancel(token) => At(s, token, Top) && token in s.cancelled
    case Loads(token, ok) => At(s, token, Top)
    case RechecksQueue(token, ok) => At(s, token, NoneQueued) && s.mutex.Free?
    case Completes(token, ok) => token in s.loops && s.mutex == Completing(token)
    case StageAborts(token, recorded) => token in s.loops && s.loops[token].pc.Picked?
    case StageStarts(token) => token in s.loops && s.loops[token].pc.Picked?
    case StageEnds(token, status, ok) =>
      && token in s.loops && s.loops[token].pc.Started?
      && status in {StageCompleted, StageFailed, StageCancelled}
      && (status == StageCancelled ==> token in s.cancelled)
    case AfterError(token) => At(s, token, Errored)
    case MarksFailed(token, ok) => At(s, token, Failing)
    case Releases(token) => At(s, token, Exiting) && s.mutex.Free?
    case CancelContext(id) => s.mutex.Free? && id in s.rows
    case CancelQueue(id) => id in s.rows
    case CancelStatus(id) => id in s.rows
    case SendReads(id, agent, workspace) =>
      && s.mutex.Free? && id in s.rows && Participant(s.rows[id], agent)
      && (id !in s.owners.running ==>
            && (workspace in s.owners.workspaces ==> s.owners.workspaces[workspace] == id)
            && |s.owners.running| < MAX_RUNNING)
    case SendWrites(ok) => s.mutex.Sending? && !s.mutex.committed && s.mutex.id in s.rows
    case SendReturns => s.mutex.Sending? && s.mutex.committed
    case Posts(id, message) => id in s.rows
    case Shutdown => s.mutex.Free?
    case Restart => true
  }

  /** Every loop past `Create` works on a stored row and on one of its stages. */
  ghost predicate LoopsHaveRows(s: State) {
    forall token | token in s.loops && !s.loops[token].pc.Reserved? ::
      && s.loops[token].id in s.rows
      && (s.loops[token].pc.Picked? || s.loops[token].pc.Started? ==> s.loops[token].pc.stage < |s.rows[s.loops[token].id].stages|)
  }

  ghost function Goto(s: State, token: Token, pc: Pc): State
    requires token in s.loops
  {
    s.(loops := s.loops[token := s.loops[token].(pc := pc)])
  }

  ghost function WithRow(s: State, id: WorkflowId, row: Workflow): State {
    s.(rows := s.rows[id := row])
  }

  /** The outcome of the read at the head of `run`. */
  ghost function Scan(row: Workflow): Pc {
    if i: nat :| FirstQueued(row, i) then Picked(i) else NoneQueued
  }

  /** The first stage of `agent` that is still queued, if any. */
  ghost function TurnOf(row: Workflow, agent: AgentId): (turn: Turn)
    ensures turn.QueuedTurn? ==> QueuedFor(row, agent, turn.stage)
    ensures turn.NoTurn? ==> forall i: nat :: !QueuedFor(row, agent, i)
  {
    if i: nat :| QueuedFor(row, agent, i) then QueuedTurn(i) else NoTurn
  }

  // ---- the steps -------------------------------------------------------------------------------

  /** A new owner with a new token: `Create`'s reservation, or the loop `sendAgentMessage` starts. */
  ghost function Claimed(s: State, id: WorkflowId, workspace: Workspace, pc: Pc): State {
    s.(owners := Claim(s.owners, id, workspace, s.next), loops := s.loops[s.next := Loop(id, workspace, pc)], next := s.next + 1)
  }

  ghost function CreateCommitted(s: State, token: Token): State
    requires token in s.loops && s.loops[token].pc.Reserved?
  {
    Goto(s, token, Top).(rows := R.CreateWorkflow(s.rows, s.loops[token].id, s.loops[token].pc.draft))
  }

  ghost function CreateRolledBack(s: State, token: Token): State
    requires token in s.loops
  {
    var loop := s.loops[token];
    s.(owners := Rollback(s.owners, loop.id, loop.workspace), loops := s.loops - {token})
  }

  /** The read under the mutex; with an empty queue the mutex stays taken until the write. */
  ghost function QueueRechecked(s: State, token: Token, ok: bool): State
    requires token in s.loops && s.loops[token].id in s.rows
  {
    if !ok then Goto(s, token, Exiting)
    else if HasQueued(Row(s, token)) then Goto(s, token, Top)
    else s.(mutex := Completing(token))
  }

  ghost function CompletionWritten(s: State, token: Token, ok: bool): State
    requires token in s.loops
  {
    var loop := s.loops[token];
    Goto(s, token, Exiting).(
      rows := if ok then SetWorkflowStatus(s.rows, loop.id, Completed) else s.rows,
      owners := Release(s.owners, loop.id, loop.workspace, token),
      mutex := Free)
  }

  ghost predicate OnStage(s: State, token: Token) {
    && token in s.loops && (s.loops[token].pc.Picked? || s.loops[token].pc.Started?)
    && s.loops[token].id in s.rows && s.loops[token].pc.stage < |Row(s, token).stages|
  }

  ghost function StageAborted(s: State, token: Token, recorded: bool): State
    requires OnStage(s, token)
  {
    var moved := Goto(s, token, Errored);
    if recorded then WithRow(moved, s.loops[token].id, FinishStage(Row(s, token), s.loops[token].pc.stage, StageFailed)) else moved
  }

  ghost function StageStarted(s: State, token: Token): State
    requires OnStage(s, token)
  {
    var i := s.loops[token].pc.stage;
    WithRow(Goto(s, token, Started(i)), s.loops[token].id, StartStage(Row(s, token), i))
  }

  ghost function StageEnded(s: State, token: Token, status: StageStatus, ok: bool): State
    requires OnStage(s, token)
  {
    if ok then
      WithRow(Goto(s, token, if status == StageCompleted then Top else Errored),
              s.loops[token].id, FinishStage(Row(s, token), s.loops[token].pc.stage, status))
    else Goto(s, token, Errored).(lost := true)
  }

  ghost function FailureMarked(s: State, token: Token, ok: bool): State
    requires token in s.loops
  {
    Goto(s, token, Exiting).(rows := if ok then SetWorkflowStatus(s.rows, s.loops[token].id, Failed) else s.rows)
  }

  /** Dropping the entry of a loop that is done, and the loop with it unless `keep`. */
  ghost function Dropped(s: State, token: Token, keep: bool): State
    requires token in s.loops
  {
    var loop := s.loops[token];
    s.(owners := Release(s.owners, loop.id, loop.workspace, token), loops := if keep then s.loops else s.loops - {token})
  }

  ghost function ContextsCancelled(s: State, tokens: set<Token>): State {
    s.(cancelled := s.cancelled + tokens)
  }

  ghost function SendRead(s: State, id: WorkflowId, agent: AgentId, workspace: Workspace): State
    requires id in s.rows
  {
    s.(mutex := Sending(id, agent, workspace, id !in s.owners.running, TurnOf(s.rows[id], agent), false))
  }

  /** `AddMessage` or `AddMessageWithStage`, depending on what the read saw. */
  ghost function SendWritten(s: State, ok: bool): State
    requires s.mutex.Sending? && s.mutex.id in s.rows
  {
    var m := s.mutex;
    var message := Message("human", m.agent);
    if !ok then s.(mutex := Free)
    else if m.turn.QueuedTurn? then
      WithRow(s, m.id, AddMessage(s.rows[m.id], message)).(mutex := m.(committed := true))
    else
      WithRow(s, m.id, AddMessageWithStage(s.rows[m.id], message, m.agent)).(
        mutex := m.(committed := true, turn := QueuedTurn(|s.rows[m.id].stages|)))
  }

  ghost function SendReturned(s: State): State
    requires s.mutex.Sending?
  {
    var free := s.(mutex := Free);
    if s.mutex.needsStart then Claimed(free, s.mutex.id, s.mutex.workspace, Top) else free
  }

  ghost function Restarted(s: State): State {
    State(MarkInterrupted(s.rows), Owners(map[], map[]), map[], {}, Free, s.next, false)
  }

  ghost function Apply(s: State, a: Action): State
    requires LoopsHaveRows(s) && Enabled(s, a)
  {
    match a
    case Reserve(id, workspace, draft) => Claimed(s, id, workspace, Pc.Reserved(draft))
    case CreateCommits(token) => CreateCommitted(s, token)
    case CreateFails(token) => CreateRolledBack(s, token)
    case SeesCancel(token) => Goto(s, token, Exiting)
    case Loads(token, ok) => Goto(s, token, if ok then Scan(Row(s, token)) else Exiting)
    case RechecksQueue(token, ok) => QueueRechecked(s, token, ok)
    case Completes(token, ok) => CompletionWritten(s, token, ok)
    case StageAborts(token, recorded) => StageAborted(s, token, recorded)
    case StageStarts(token) => StageStarted(s, token)
    case StageEnds(token, status, ok) => StageEnded(s, token, status, ok)
    case AfterError(token) => Goto(s, token, if token in s.cancelled then Exiting else Failing)
    case MarksFailed(token, ok) => FailureMarked(s, token, ok)
    case Releases(token) => Dropped(s, token, false)
    case CancelContext(id) => ContextsCancelled(s, if id in s.owners.running then {s.owners.running[id]} else {})
    case CancelQueue(id) => WithRow(s, id, CancelQueuedStages(s.rows[id]))
    case CancelStatus(id) => s.(rows := SetWorkflowStatus(s.rows, id, Cancelled))
    case SendReads(id, agent, workspace) => SendRead(s, id, agent, workspace)
    case SendWrites(ok) => SendWritten(s, ok)
    case SendReturns => SendReturned(s)
    case Posts(id, message) => WithRow(s, id, AddMessage(s.rows[id], message))
    case Shutdown => ContextsCancelled(s, s.owners.running.Values)
    case Restart => Restarted(s)
  }

  // ---- the invariant ---------------------------------------------------------------------------

  /** Loop `token` holds the `running` entry and the workspace of its workflow. */
  ghost predicate Owns(s: State, token: Token) {
    && token in s.loops
    && s.loops[token].id in s.owners.running && s.owners.running[s.loops[token].id] == token
    && s.loops[token].workspace in s.owners.workspaces && s.owners.workspaces[s.loops[token].workspace] == s.loops[token].id
  }

  ghost predicate OwnersOk(s: State) {
    && |s.owners.running| <= MAX_RUNNING
    && (forall id | id in s.owners.running ::
          Owns(s, s.owners.running[id]) && s.loops[s.owners.running[id]].id == id)
    && (forall w | w in s.owners.workspaces ::
          && s.owners.workspaces[w] in s.owners.running
          && s.loops[s.owners.running[s.owners.workspaces[w]]].workspace == w)
  }

  /** A loop at `pc` still relies on its row; `Exiting` may outlive the entry. */
  ghost predicate PcOk(row: Workflow, pc: Pc) {
    match pc
    case Picked(i) => MayStart(row, i)
    case Started(i) => i < |row.stages|
    case _ => true
  }

  ghost predicate LoopOk(s: State, token: Token)
    requires token in s.loops
  {
    var loop := s.loops[token];
    && token < s.next
    && (loop.pc != Exiting ==> Owns(s, token))
    && (loop.pc.Reserved? ==> loop.id !in s.rows && IsDraft(loop.pc.draft))
    && (!loop.pc.Reserved? ==> loop.id in s.rows && PcOk(s.rows[loop.id], loop.pc))
  }

  ghost predicate MutexOk(s: State) {
    match s.mutex
    case Free => true
    case Completing(token) =>
      At(s, token, NoneQueued) && s.loops[token].id in s.rows && !HasQueued(s.rows[s.loops[token].id])
    case Sending(id, agent, workspace, needsStart, turn, committed) =>
      && id in s.rows
      && (needsStart <==> id !in s.owners.running)
      && (needsStart ==> workspace !in s.owners.workspaces && |s.owners.running| < MAX_RUNNING)
      && (turn.QueuedTurn? ==>
            && s.rows[id].status != Completed
            && turn.stage < |s.rows[id].stages| && s.rows[id].stages[turn.stage].agent == agent)
      && (turn.NoTurn? ==> !committed && forall i: nat :: !QueuedFor(s.rows[id], agent, i))
  }

  ghost predicate WaitsFor(s: State, id: WorkflowId, i: nat) {
    id in s.owners.running && At(s, s.owners.running[id], Started(i))
  }

  /** A running stage is the one its workflow's loop is waiting for, unless an end was lost. */
  ghost predicate RunningOwned(s: State) {
    forall id, i: nat | id in s.rows && i < |s.rows[id].stages| && s.rows[id].stages[i].status == StageRunning :: WaitsFor(s, id, i)
  }

  ghost predicate RowsOk(s: State) {
    forall id | id in s.rows :: RowOk(s.rows[id])
  }

  ghost predicate LoopsOk(s: State) {
    forall token | token in s.loops :: LoopOk(s, token)
  }

  /** A completed workflow has no owner left. */
  ghost predicate CompletedUnowned(s: State) {
    forall id | id in s.rows && s.rows[id].status == Completed :: id !in s.owners.running
  }

  ghost predicate Inv(s: State) {
    && LoopsHaveRows(s)
    && OwnersOk(s)
    && LoopsOk(s)
    && RowsOk(s)
    && CompletedUnowned(s)
    && MutexOk(s)
    && (!s.lost ==> RunningOwned(s))
  }

  lemma InitOk()
    ensures Inv(INIT)
  {
  }
}
