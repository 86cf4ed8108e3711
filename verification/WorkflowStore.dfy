/** The store's transactions, statement by statement, against the effects in WorkflowRows. */
module WorkflowStore {
  import opened WorkflowRows
  import opened Wrappers
  import R = WorkflowRows

  /** The SQL engine's oracle for one transaction: every statement works, or statement `at` fails. */
  datatype Fault = NoFault | FailsAt(at: nat)

  class Store {
    var rows: Rows

    /** The room of each message, in the order of their AUTOINCREMENT ids over all rooms. */
    var rooms: seq<WorkflowId>

    constructor ()
      ensures rows == map[] && rooms == []
    {
      rows, rooms := map[], [];
    }

    /** The message replied to exists, and in this room. */
    predicate CanReply(id: WorkflowId, reply: Option<nat>)
      reads this
    {
      reply.Some? ==> reply.value < |rooms| && rooms[reply.value] == id
    }

    method CreateWorkflow(id: WorkflowId, stages: seq<Stage>, fault: Fault) returns (ok: bool)
      requires id !in rows
      modifies this
      ensures ok <==> fault == NoFault || |stages| + 1 < fault.at
      ensures rows == if ok then R.CreateWorkflow(old(rows), id, stages) else old(rows)
      ensures rooms == if ok then old(rooms) + [id] else old(rooms)
    {
      var tx := Workflow(Queued, [], [], []);
      for i := 0 to |stages|
        invariant tx == Workflow(Queued, stages[..i], [], [])
        invariant fault == NoFault || i <= fault.at
        invariant rows == old(rows) && rooms == old(rooms)
      {
        if fault == FailsAt(i) {
          return false;
        }
        tx := tx.(stages := tx.stages + [stages[i]]);
      }
      assert stages[..|stages|] == stages;
      if fault == FailsAt(|stages|) {
        return false;
      }
      tx := tx.(events := tx.events + [WorkflowCreated]);
      if fault == FailsAt(|stages| + 1) {
        return false;
      }
      tx := tx.(messages := tx.messages + [Message("human", "team")]);
      assert tx == Workflow(Queued, stages, [WorkflowCreated], [Message("human", "team")]);
      rows, rooms := rows[id := tx], rooms + [id];
      ok := true;
    }

    method SetWorkflowStatus(id: WorkflowId, status: WorkflowStatus) returns (ok: bool)
      modifies this`rows
      ensures ok <==> id in old(rows)
      ensures rows == R.SetWorkflowStatus(old(rows), id, status)
    {
      if id in rows {
        rows := rows[id := rows[id].(status := status)];
        ok := true;
      } else {
        ok := false;
      }
    }

    method StartStage(id: WorkflowId, i: nat, fault: Fault) returns (ok: bool)
      requires id in rows && i < |rows[id].stages|
      modifies this`rows
      ensures ok <==> fault == NoFault || 3 <= fault.at
      ensures rows == if ok then old(rows)[id := R.StartStage(old(rows)[id], i)] else old(rows)
    {
      var tx := rows[id];
      if fault == FailsAt(0) {
        return false;
      }
      tx := tx.(status := Running);
      if fault == FailsAt(1) {
        return false;
      }
      tx := tx.(stages := tx.stages[i := tx.stages[i].(status := StageRunning)]);
      if fault == FailsAt(2) {
        return false;
      }
      tx := tx.(events := tx.events + [TurnStarted(i)]);
      rows := rows[id := tx];
      ok := true;
    }

    method FinishStage(id: WorkflowId, i: nat, status: StageStatus, fault: Fault) returns (ok: bool)
      requires id in rows && i < |rows[id].stages|
      modifies this`rows
      ensures ok <==> fault == NoFault || 2 <= fault.at
      ensures rows == if ok then old(rows)[id := R.FinishStage(old(rows)[id], i, status)] else old(rows)
    {
      var tx := rows[id];
      if fault == FailsAt(0) {
        return false;
      }
      tx := tx.(stages := tx.stages[i := tx.stages[i].(status := status)]);
      if fault == FailsAt(1) {
        return false;
      }
      tx := tx.(events := tx.events + [TurnEnded(i, status)]);
      rows := rows[id := tx];
      ok := true;
    }

    method CancelQueuedStages(id: WorkflowId)
      requires id in rows
      modifies this`rows
      ensures rows == old(rows)[id := R.CancelQueuedStages(old(rows)[id])]
    {
      var row := rows[id];
      rows := rows[id := row.(stages := seq(|row.stages|, i requires 0 <= i < |row.stages| => CancelledIfQueued(row.stages[i])))];
    }

    /**
      `addMessageWithStage`: the room message and the follow-up stage commit together or not at all; a
      reply to a message that does not exist, or not in this room, is refused.
    */
    method AddMessageWithStage(id: WorkflowId, message: Message, reply: Option<nat>, agent: AgentId, follow: bool, fault: Fault) returns (ok: bool)
      requires id in rows
      modifies this
      ensures ok <==> old(CanReply(id, reply)) && (fault == NoFault || (if follow then 4 else 1) < fault.at)
      ensures !ok ==> rows == old(rows) && rooms == old(rooms)
      ensures ok ==> rooms == old(rooms) + [id]
      ensures ok && follow ==> rows == old(rows)[id := R.AddMessageWithStage(old(rows)[id], message, agent)]
      ensures ok && !follow ==> rows == old(rows)[id := AddMessage(old(rows)[id], message)]
    {
      if reply.Some? {
        if reply.value >= |rooms| {
          return false;
        }
        if rooms[reply.value] != id {
          return false;
        }
      }
      var tx := rows[id];
      if fault == FailsAt(0) {
        return false;
      }
      tx := tx.(messages := tx.messages + [message]);
      if follow {
        if fault == FailsAt(1) {
          return false;
        }
        var position := NextPosition(tx.stages);
        if fault == FailsAt(2) {
          return false;
        }
        tx := tx.(stages := tx.stages + [Stage(position, agent, StageQueued)]);
        if fault == FailsAt(3) {
          return false;
        }
        tx := tx.(events := tx.events + [TurnQueued(|tx.stages| - 1)]);
        if fault == FailsAt(4) {
          return false;
        }
        tx := tx.(status := Revived(tx.status));
      } else if fault == FailsAt(1) {
        return false;
      }
      rows, rooms := rows[id := tx], rooms + [id];
      ok := true;
    }

    method MarkInterrupted()
      modifies this`rows
      ensures rows == R.MarkInterrupted(old(rows))
      ensures forall id, i | id in old(rows) && 0 <= i < |old(rows)[id].stages| ::
                && id in rows && i < |rows[id].stages|
                && rows[id].stages[i].status == (var was := old(rows)[id].stages[i].status; if was == StageRunning then StageInterrupted else was)
      ensures forall id | id in old(rows) ::
                id in rows && rows[id].status == (var was := old(rows)[id].status; if was in {Running, Queued} then Interrupted else was)
    {
      var before := rows;
      var stagesDone: Rows := map id | id in before ::
        before[id].(stages := seq(|before[id].stages|, i requires 0 <= i < |before[id].stages| => InterruptedIfRunning(before[id].stages[i])));
      rows := map id | id in stagesDone ::
        stagesDone[id].(status := if stagesDone[id].status in {Running, Queued} then Interrupted else stagesDone[id].status);
    }
  }
}
