/**
  The manager object (coordinator/manager.go): its two maps, the lock sections that change them, and
  the run loop. Each method is one lock section or one undisturbed call; how they interleave is the
  business of the step machine in Coordinator.
*/
module CoordinatorManager {
  import opened Ownership
  import opened RunQueue
  import opened WorkflowRows
  import opened WorkflowStore
  import opened Wrappers
  import R = WorkflowRows

  datatype Refusal = WorkspaceBusy | TooManyRunning | StoreFailed

  datatype Result<T> = Ok(value: T) | Err(error: Refusal)

  class Manager {
    const store: Store
    var running: map<WorkflowId, Token>
    var workspaces: map<Workspace, WorkflowId>
    var next: Token

    constructor (store: Store)
      ensures this.store == store && Owned() == Owners(map[], map[])
    {
      this.store := store;
      running, workspaces, next := map[], map[], 0;
    }

    function Owned(): Owners
      reads this
    {
      Owners(running, workspaces)
    }

    /** `Create`: reserve, commit the row, give the reservation back if that fails. */
    method Create(id: WorkflowId, workspace: Workspace, draft: seq<Stage>, fault: Fault) returns (r: Result<Token>)
      requires id !in store.rows && id !in running
      modifies this, store
      ensures r.Ok? <==> CanReserve(old(Owned()), workspace) && (fault == NoFault || |draft| + 1 < fault.at)
      ensures r.Ok? ==> Owned() == Claim(old(Owned()), id, workspace, r.value)
      ensures r.Ok? ==> store.rows == R.CreateWorkflow(old(store.rows), id, draft)
      ensures r.Err? ==> Owned() == old(Owned()) && store.rows == old(store.rows)
      ensures r.Err? && r.error == WorkspaceBusy <==> workspace in old(workspaces)
      ensures r == Err(TooManyRunning) <==> workspace !in old(workspaces) && |old(running)| >= 2
    {
      hide R.CreateWorkflow, Claim, Rollback, Store.CanReply;
      if workspace in workspaces {
        return Err(WorkspaceBusy);
      }
      if |running| >= MAX_RUNNING {
        return Err(TooManyRunning);
      }
      workspaces := workspaces[workspace := id];
      var token := next;
      next := next + 1;
      running := running[id := token];
      RollbackUndoes(old(Owned()), id, workspace, token);
      ClaimIs(old(Owned()), id, workspace, token);
      var ok := store.CreateWorkflow(id, draft, fault);
      if !ok {
        running := running - {id};
        workspaces := workspaces - {workspace};
        return Err(StoreFailed);
      }
      r := Ok(token);
    }

    static lemma ClaimIs(o: Owners, id: WorkflowId, workspace: Workspace, token: Token)
      ensures Claim(o, id, workspace, token) == Owners(o.running[id := token], o.workspaces[workspace := id])
    {
    }

    /** The deferred cleanup of `run`. */
    method Release(id: WorkflowId, workspace: Workspace, owned: Token)
      modifies this`running, this`workspaces
      ensures Owned() == Ownership.Release(old(Owned()), id, workspace, owned)
      ensures id in old(running) && old(running)[id] != owned ==> Owned() == old(Owned())
    {
      if id in running && running[id] == owned {
        running := running - {id};
        if workspace in workspaces && workspaces[workspace] == id {
          workspaces := workspaces - {workspace};
        }
      }
    }

    ghost predicate HasTurn(row: Workflow, agent: AgentId) {
      exists i: nat :: QueuedFor(row, agent, i)
    }

    /** `sendAgentMessage`, whole. */
    method SendAgentMessage(id: WorkflowId, agent: AgentId, reply: Option<nat>, workspace: Workspace, fault: Fault) returns (r: Result<()>)
      requires id in store.rows
      modifies this, store
      ensures r.Err? ==> Owned() == old(Owned()) && store.rows == old(store.rows)
      ensures r == Err(WorkspaceBusy) <==>
              id !in old(running) && workspace in old(workspaces) && old(workspaces)[workspace] != id
      ensures r == Err(TooManyRunning) <==>
              id !in old(running) && r != Err(WorkspaceBusy) && |old(running)| >= MAX_RUNNING
      ensures r.Ok? ==> old(store.CanReply(id, reply))
      ensures r.Err? && fault == NoFault && old(store.CanReply(id, reply)) ==> r.error != StoreFailed
      ensures r.Ok? ==> Owned() == if id in old(running) then old(Owned()) else Claim(old(Owned()), id, workspace, old(next))
      ensures r.Ok? ==> store.rows == old(store.rows)[id :=
                if HasTurn(old(store.rows)[id], agent) then AddMessage(old(store.rows)[id], Message("human", agent))
                else AddMessageWithStage(old(store.rows)[id], Message("human", agent), agent)]
      ensures r.Ok? ==> id in running && HasTurn(store.rows[id], agent)
    {
      var row := store.rows[id];
      var hasQueuedTurn, i, turn := false, 0, 0;
      while i < |row.stages| && !hasQueuedTurn
        invariant i <= |row.stages|
        invariant hasQueuedTurn ==> QueuedFor(row, agent, turn)
        invariant !hasQueuedTurn ==> forall j: nat | j < i :: !QueuedFor(row, agent, j)
      {
        if row.stages[i].agent == agent && row.stages[i].status == StageQueued {
          hasQueuedTurn, turn := true, i;
        }
        i := i + 1;
      }
      var needsStart := id !in running;
      if needsStart {
        if workspace in workspaces && workspaces[workspace] != id {
          return Err(WorkspaceBusy);
        }
        if |running| >= MAX_RUNNING {
          return Err(TooManyRunning);
        }
      }
      var ok := store.AddMessageWithStage(id, Message("human", agent), reply, agent, !hasQueuedTurn, fault);
      if !ok {
        return Err(StoreFailed);
      }
      assert QueuedFor(store.rows[id], agent, if hasQueuedTurn then turn else |row.stages|);
      if needsStart {
        workspaces := workspaces[workspace := id];
        running := running[id := next];
        next := next + 1;
      }
      r := Ok(());
    }

    /** `run` with nobody interfering and every store write succeeding: it drains the queue and gives up its entry. */
    method Run(id: WorkflowId, workspace: Workspace, owned: Token, exits: nat -> bool)
      requires id in store.rows
      modifies this`running, this`workspaces, store
      ensures store.rows == old(store.rows)[id := Drain(old(store.rows)[id], exits)]
      ensures Owned() == Ownership.Release(old(Owned()), id, workspace, owned)
    {
      ghost var target := Drain(store.rows[id], exits);
      var done := false;
      while !done
        invariant id in store.rows && Owned() == old(Owned())
        invariant store.rows == old(store.rows)[id := store.rows[id]]
        invariant target == if done then store.rows[id] else Drain(store.rows[id], exits)
        decreases !done, |store.rows[id].stages| - NextQueued(store.rows[id].stages)
      {
        var stage := FindQueued(store.rows[id].stages);
        if stage == |store.rows[id].stages| {
          var _ := store.SetWorkflowStatus(id, Completed);
          done := true;
        } else {
          TurnMovesOn(store.rows[id], exits);
          var started := store.StartStage(id, stage, NoFault);
          if exits(stage) {
            var finished := store.FinishStage(id, stage, StageCompleted, NoFault);
          } else {
            var finished := store.FinishStage(id, stage, StageFailed, NoFault);
            var _ := store.SetWorkflowStatus(id, Failed);
            done := true;
          }
        }
      }
      Release(id, workspace, owned);
    }

    /** The scan at the head of the loop. */
    method FindQueued(stages: seq<Stage>) returns (index: nat)
      ensures index == NextQueued(stages)
    {
      index := 0;
      while index < |stages| && stages[index].status != StageQueued
        invariant index <= |stages|
        invariant forall j | 0 <= j < index :: stages[j].status != StageQueued
      {
        index := index + 1;
      }
      assert !(index < NextQueued(stages)) && !(NextQueued(stages) < index);
    }
  }
}
