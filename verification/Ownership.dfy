/**
  Which goroutine owns which workflow (the `running` and `workspaces` maps of coordinator/manager.go).
  A token stands for the identity of a `*runningWorkflow`.
*/
module Ownership {
  import opened WorkflowRows

  type Token = nat
  type Workspace = string

  datatype Owners = Owners(running: map<WorkflowId, Token>, workspaces: map<Workspace, WorkflowId>)

  const MAX_RUNNING := 2

  predicate CanReserve(o: Owners, workspace: Workspace) {
    workspace !in o.workspaces && |o.running| < MAX_RUNNING
  }

  function Claim(o: Owners, id: WorkflowId, workspace: Workspace, token: Token): Owners {
    Owners(o.running[id := token], o.workspaces[workspace := id])
  }

  function Rollback(o: Owners, id: WorkflowId, workspace: Workspace): Owners {
    Owners(o.running - {id}, o.workspaces - {workspace})
  }

  /** Giving a fresh reservation back leaves the maps as they were. */
  lemma RollbackUndoes(o: Owners, id: WorkflowId, workspace: Workspace, token: Token)
    requires id !in o.running && workspace !in o.workspaces
    ensures o.running[id := token] - {id} == o.running && o.workspaces[workspace := id] - {workspace} == o.workspaces
    ensures Rollback(Claim(o, id, workspace, token), id, workspace) == o
  {
  }

  /** The release shared by the deferred cleanup and the completion check: only the owner's entry goes. */
  function Release(o: Owners, id: WorkflowId, workspace: Workspace, token: Token): Owners {
    if id in o.running && o.running[id] == token then
      Owners(o.running - {id},
             if workspace in o.workspaces && o.workspaces[workspace] == id then o.workspaces - {workspace} else o.workspaces)
    else o
  }

  /** `workspaces` is a bijection onto the ids in `running`, and there is room for two. */
  ghost predicate Bijective(o: Owners) {
    && |o.running| <= MAX_RUNNING
    && o.workspaces.Values == o.running.Keys
    && forall a, b | a in o.workspaces && b in o.workspaces && o.workspaces[a] == o.workspaces[b] :: a == b
  }
}
