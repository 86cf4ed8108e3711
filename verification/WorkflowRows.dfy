/**
  The workflow database (coordinator/store.go).

  A row keeps a workflow's stages in insertion order with the `position` column spelled out, and its
  `events` table in AUTOINCREMENT order; a stage is named by its index in the row. Each
  function is the effect of one committed transaction.
*/
module WorkflowRows {
  type WorkflowId = nat
  type AgentId = string

  datatype StageStatus = StageQueued | StageRunning | StageCompleted | StageFailed | StageCancelled | StageInterrupted

  datatype WorkflowStatus = Queued | Running | Completed | Failed | Cancelled | Interrupted

  datatype Stage = Stage(position: int, agent: AgentId, status: StageStatus)

  datatype Event = WorkflowCreated | TurnQueued(stage: nat) | TurnStarted(stage: nat) | TurnEnded(stage: nat, status: StageStatus)

  datatype Message = Message(sender: string, recipient: string)

  datatype Workflow = Workflow(status: WorkflowStatus, stages: seq<Stage>, events: seq<Event>, messages: seq<Message>)

  type Rows = map<WorkflowId, Workflow>

  /** What `Compile` hands to `CreateWorkflow`: queued stages numbered from zero. */
  ghost predicate IsDraft(stages: seq<Stage>) {
    && stages != []
    && forall i | 0 <= i < |stages| :: stages[i].position == i && stages[i].status == StageQueued
  }

  ghost predicate HasQueued(row: Workflow) {
    exists i :: 0 <= i < |row.stages| && row.stages[i].status == StageQueued
  }

  /** Stage `i` is the first queued one in `ORDER BY position`. */
  ghost predicate FirstQueued(row: Workflow, i: nat) {
    && i < |row.stages|
    && row.stages[i].status == StageQueued
    && forall j | 0 <= j < |row.stages| && row.stages[j].status == StageQueued :: row.stages[i].position <= row.stages[j].position
  }

  ghost predicate QueuedFor(row: Workflow, agent: AgentId, i: nat) {
    i < |row.stages| && row.stages[i].agent == agent && row.stages[i].status == StageQueued
  }

  ghost function QueuedCount(row: Workflow, agent: AgentId): nat {
    |set i: nat | i < |row.stages| && QueuedFor(row, agent, i)|
  }

  // ---- committed transactions ------------------------------------------------------------------

  function CreateWorkflow(rows: Rows, id: WorkflowId, stages: seq<Stage>): Rows {
    rows[id := Workflow(Queued, stages, [WorkflowCreated], [Message("human", "team")])]
  }

  function SetWorkflowStatus(rows: Rows, id: WorkflowId, status: WorkflowStatus): Rows {
    if id in rows then rows[id := rows[id].(status := status)] else rows
  }

  function WithStatus(row: Workflow, i: nat, status: StageStatus): seq<Stage>
    requires i < |row.stages|
  {
    row.stages[i := row.stages[i].(status := status)]
  }

  /** Neither UPDATE looks at the current status, so a cancelled stage can still start. */
  function StartStage(row: Workflow, i: nat): Workflow
    requires i < |row.stages|
  {
    row.(status := Running, stages := WithStatus(row, i, StageRunning), events := row.events + [TurnStarted(i)])
  }

  function FinishStage(row: Workflow, i: nat, status: StageStatus): Workflow
    requires i < |row.stages|
  {
    row.(stages := WithStatus(row, i, status), events := row.events + [TurnEnded(i, status)])
  }

  function CancelledIfQueued(stage: Stage): Stage {
    if stage.status == StageQueued then stage.(status := StageCancelled) else stage
  }

  function CancelQueuedStages(row: Workflow): Workflow {
    row.(stages := seq(|row.stages|, i requires 0 <= i < |row.stages| => CancelledIfQueued(row.stages[i])))
  }

  /** `COALESCE(MAX(position), -1) + 1` */
  function NextPosition(stages: seq<Stage>): (p: int)
    ensures forall i | 0 <= i < |stages| :: stages[i].position < p
    ensures p == 0 || exists i :: 0 <= i < |stages| && stages[i].position == p - 1
  {
    if stages == [] then 0
    else
      var rest := NextPosition(stages[..|stages| - 1]);
      var last := stages[|stages| - 1].position;
      if rest <= last then last + 1 else rest
  }

  function Revived(status: WorkflowStatus): WorkflowStatus {
    if status in {Completed, Failed, Cancelled, Interrupted} then Queued else status
  }

  function AddMessage(row: Workflow, message: Message): Workflow {
    row.(messages := row.messages + [message])
  }

  function AddMessageWithStage(row: Workflow, message: Message, agent: AgentId): Workflow {
    Workflow(Revived(row.status),
             row.stages + [Stage(NextPosition(row.stages), agent, StageQueued)],
             row.events + [TurnQueued(|row.stages|)],
             row.messages + [message])
  }

  function InterruptedIfRunning(stage: Stage): Stage {
    if stage.status == StageRunning then stage.(status := StageInterrupted) else stage
  }

  function MarkRowInterrupted(row: Workflow): Workflow {
    row.(status := if row.status in {Running, Queued} then Interrupted else row.status,
         stages := seq(|row.stages|, i requires 0 <= i < |row.stages| => InterruptedIfRunning(row.stages[i])))
  }

  function MarkInterrupted(rows: Rows): Rows {
    map id | id in rows :: MarkRowInterrupted(rows[id])
  }

  // ---- what every row keeps --------------------------------------------------------------------

  ghost predicate PositionsAreIndices(row: Workflow) {
    forall i | 0 <= i < |row.stages| :: row.stages[i].position == i
  }

  /** The `stage.started` events name strictly increasing stages, hence no stage twice. */
  ghost predicate StartsIncrease(events: seq<Event>) {
    forall a, b | 0 <= a < b < |events| && events[a].TurnStarted? && events[b].TurnStarted? :: events[a].stage < events[b].stage
  }

  ghost predicate LeftQueueThrough(stages: seq<Stage>, p: nat) {
    p < |stages| && forall j | 0 <= j <= p :: stages[j].status != StageQueued
  }

  /** Everything up to a started stage has left the queue for good. */
  ghost predicate StartedBehindQueue(row: Workflow) {
    forall a | 0 <= a < |row.events| && row.events[a].TurnStarted? :: LeftQueueThrough(row.stages, row.events[a].stage)
  }

  ghost predicate RowOk(row: Workflow) {
    && PositionsAreIndices(row)
    && StartsIncrease(row.events)
    && StartedBehindQueue(row)
    && (row.status == Completed ==> !HasQueued(row))
  }

  /** Stage `i` may start next: nothing before it is queued and nothing at or after it has started. */
  ghost predicate MayStart(row: Workflow, i: nat) {
    && i < |row.stages|
    && (forall j | 0 <= j < i :: row.stages[j].status != StageQueued)
    && (forall a | 0 <= a < |row.events| && row.events[a].TurnStarted? :: row.events[a].stage < i)
  }

  /** With positions equal to indices, the next free position is the next index. */
  lemma NextPositionIsLength(stages: seq<Stage>)
    requires forall i | 0 <= i < |stages| :: stages[i].position == i
    ensures NextPosition(stages) == |stages|
  {
    if stages != [] {
      assert stages[|stages| - 1].position == |stages| - 1;
    }
  }

  /** The head of the queue is exactly a stage that may start and is still queued. */
  lemma FirstQueuedMayStart(row: Workflow, i: nat)
    requires RowOk(row)
    ensures FirstQueued(row, i) <==> MayStart(row, i) && row.stages[i].status == StageQueued
  {
    if FirstQueued(row, i) {
      assert forall j | 0 <= j < i :: row.stages[j].position < row.stages[i].position;
      assert forall p: nat | i <= p :: !LeftQueueThrough(row.stages, p);
    }
  }

  /** A non-empty queue has a head. */
  lemma {:induction false} QueueHasHead(row: Workflow, k: nat)
    requires PositionsAreIndices(row)
    requires k < |row.stages| && row.stages[k].status == StageQueued
    ensures exists i: nat :: FirstQueued(row, i)
    decreases k
  {
    if j: nat :| j < k && row.stages[j].status == StageQueued {
      QueueHasHead(row, j);
    } else {
      assert FirstQueued(row, k);
    }
  }

  /** A row whose later stages never re-enter the queue keeps its starts behind the queue. */
  lemma StaysBehindQueue(row: Workflow, next: Workflow)
    requires StartedBehindQueue(row) && StartsIncrease(row.events)
    requires |row.stages| <= |next.stages|
    requires forall j | 0 <= j < |row.stages| && row.stages[j].status != StageQueued :: next.stages[j].status != StageQueued
    requires next.events == row.events || (exists e: Event :: !e.TurnStarted? && next.events == row.events + [e])
    ensures StartedBehindQueue(next) && StartsIncrease(next.events)
  {
    forall a | 0 <= a < |next.events| && next.events[a].TurnStarted? ensures a < |row.events| && next.events[a] == row.events[a] {
    }
    forall a | 0 <= a < |next.events| && next.events[a].TurnStarted? ensures LeftQueueThrough(next.stages, next.events[a].stage) {
      assert LeftQueueThrough(row.stages, row.events[a].stage);
    }
  }

  lemma CreateWorkflowKeeps(stages: seq<Stage>)
    requires IsDraft(stages)
    ensures RowOk(Workflow(Queued, stages, [WorkflowCreated], [Message("human", "team")]))
  {
  }

  lemma StartStageKeeps(row: Workflow, i: nat)
    requires RowOk(row) && MayStart(row, i)
    ensures RowOk(StartStage(row, i))
    ensures StartStage(row, i).events[|row.events|] == TurnStarted(i)
  {
    var next := StartStage(row, i);
    forall a | 0 <= a < |next.events| && next.events[a].TurnStarted? ensures LeftQueueThrough(next.stages, next.events[a].stage) {
      if a < |row.events| {
        assert LeftQueueThrough(row.stages, row.events[a].stage);
      }
    }
  }

  lemma FinishStageKeeps(row: Workflow, i: nat, status: StageStatus)
    requires RowOk(row) && i < |row.stages| && status != StageQueued
    ensures RowOk(FinishStage(row, i, status))
  {
    StaysBehindQueue(row, FinishStage(row, i, status));
  }

  /** Every queued stage is cancelled, every other one is as it was, and so is the rest of the row. */
  lemma CancelQueuedStagesKeeps(row: Workflow)
    requires RowOk(row)
    ensures var next := CancelQueuedStages(row);
            && RowOk(next) && !HasQueued(next)
            && next == row.(stages := next.stages) && |next.stages| == |row.stages|
            && forall i | 0 <= i < |row.stages| ::
                 next.stages[i] == if row.stages[i].status == StageQueued then row.stages[i].(status := StageCancelled) else row.stages[i]
  {
    StaysBehindQueue(row, CancelQueuedStages(row));
  }

  lemma AddMessageWithStageKeeps(row: Workflow, message: Message, agent: AgentId)
    requires RowOk(row)
    ensures RowOk(AddMessageWithStage(row, message, agent))
    ensures AddMessageWithStage(row, message, agent).status != Completed
    ensures QueuedFor(AddMessageWithStage(row, message, agent), agent, |row.stages|)
  {
    NextPositionIsLength(row.stages);
    StaysBehindQueue(row, AddMessageWithStage(row, message, agent));
  }

  /** A restart interrupts every running stage and a running or queued workflow, and changes nothing else. */
  lemma MarkInterruptedKeeps(row: Workflow)
    requires RowOk(row)
    ensures var next := MarkRowInterrupted(row);
            && RowOk(next)
            && next == row.(status := next.status, stages := next.stages) && |next.stages| == |row.stages|
            && (next.status == if row.status in {Running, Queued} then Interrupted else row.status)
            && forall i | 0 <= i < |row.stages| ::
                 next.stages[i] == if row.stages[i].status == StageRunning then row.stages[i].(status := StageInterrupted) else row.stages[i]
  {
    StaysBehindQueue(row, MarkRowInterrupted(row));
  }
}
