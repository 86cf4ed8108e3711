/**
  Every step of the coordinator keeps its invariant. The steps are built from three moves (a loop
  changes its program counter, a row is replaced, an entry is claimed or released), each with its own lemma.
*/
module CoordinatorInvariant {
  import opened Coordinator
  import opened Ownership
  import opened WorkflowRows

  /** The invariant taken apart and put together, for proofs that hide what is inside. */
  lemma Parts(s: State)
    requires Inv(s)
    ensures LoopsHaveRows(s) && OwnersOk(s) && LoopsOk(s) && RowsOk(s) && CompletedUnowned(s) && MutexOk(s) && (!s.lost ==> RunningOwned(s))
  {
  }

  lemma Assemble(s: State)
    requires LoopsHaveRows(s) && OwnersOk(s) && LoopsOk(s) && RowsOk(s) && CompletedUnowned(s) && MutexOk(s) && (!s.lost ==> RunningOwned(s))
    ensures Inv(s)
  {
  }

  ghost predicate NoneRunning(row: Workflow) {
    forall i | 0 <= i < |row.stages| :: row.stages[i].status != StageRunning
  }

  /** No loop but the owner works on a workflow, so a loop that is not waiting leaves no stage running. */
  lemma OnlyStartedRuns(s: State, token: Token)
    requires Inv(s) && !s.lost && token in s.loops && s.loops[token].pc != Exiting
    requires !s.loops[token].pc.Reserved? && !s.loops[token].pc.Started?
    ensures NoneRunning(Row(s, token))
  {
    assert LoopOk(s, token);
    assert forall i: nat | i < |Row(s, token).stages| && Row(s, token).stages[i].status == StageRunning ::
        WaitsFor(s, s.loops[token].id, i);
  }

  /** Ownership looks only at the two maps and at what each loop works on. */
  lemma OwnersFrame(s: State, n: State)
    requires OwnersOk(s) && s.owners == n.owners && s.loops.Keys == n.loops.Keys
    requires forall t | t in s.loops :: s.loops[t].id == n.loops[t].id && s.loops[t].workspace == n.loops[t].workspace
    ensures OwnersOk(n)
  {
    forall id | id in n.owners.running ensures Owns(n, n.owners.running[id]) && n.loops[n.owners.running[id]].id == id {
      assert Owns(s, s.owners.running[id]);
    }
  }

  /** With the rows unchanged, it is enough that no loop that was being waited for goes away. */
  lemma RunningFrame(s: State, n: State)
    requires s.rows == n.rows && RunningOwned(s)
    requires forall id, i: nat | id in s.rows && i < |s.rows[id].stages| && s.rows[id].stages[i].status == StageRunning && WaitsFor(s, id, i) ::
               WaitsFor(n, id, i)
    ensures RunningOwned(n)
  {
  }

  lemma GotoLoops(s: State, token: Token, pc: Pc)
    requires LoopsOk(s) && token in s.loops && s.loops[token].id in s.rows
    requires !s.loops[token].pc.Reserved? && s.loops[token].pc != Exiting && !pc.Reserved?
    requires PcOk(Row(s, token), pc)
    ensures LoopsOk(Goto(s, token, pc))
  {
    hide MayStart, IsDraft;
    var n := Goto(s, token, pc);
    forall t | t in n.loops ensures LoopOk(n, t) {
      assert LoopOk(s, t);
    }
  }

  lemma GotoRest(s: State, token: Token, pc: Pc)
    requires LoopsHaveRows(s) && RowsOk(s) && CompletedUnowned(s) && MutexOk(s) && (!s.lost ==> RunningOwned(s))
    requires token in s.loops && s.loops[token].id in s.rows && s.mutex != Completing(token) && !pc.Reserved?
    requires PcOk(Row(s, token), pc) && (!s.lost ==> NoneRunning(Row(s, token)) && OwnersOk(s))
    ensures var n := Goto(s, token, pc);
            LoopsHaveRows(n) && RowsOk(n) && CompletedUnowned(n) && MutexOk(n) && (!n.lost ==> RunningOwned(n))
  {
    hide RowOk, HasQueued, OwnersOk;
    var n := Goto(s, token, pc);
    if !n.lost {
      forall id, i: nat | id in s.rows && i < |s.rows[id].stages| && s.rows[id].stages[i].status == StageRunning ensures WaitsFor(n, id, i) {
        assert WaitsFor(s, id, i);
        OwnerIsIts(s, id);
      }
    }
  }

  lemma OwnerIsIts(s: State, id: WorkflowId)
    requires OwnersOk(s) && id in s.owners.running
    ensures s.owners.running[id] in s.loops && s.loops[s.owners.running[id]].id == id
  {
    assert Owns(s, s.owners.running[id]);
  }

  lemma GotoKeeps(s: State, token: Token, pc: Pc)
    requires Inv(s) && token in s.loops && s.mutex != Completing(token)
    requires !s.loops[token].pc.Reserved? && s.loops[token].pc != Exiting && !pc.Reserved?
    requires PcOk(Row(s, token), pc)
    requires !s.lost ==> NoneRunning(Row(s, token))
    ensures Inv(Goto(s, token, pc))
  {
    Parts(s);
    OwnersFrame(s, Goto(s, token, pc));
    hide *;
    GotoLoops(s, token, pc);
    GotoRest(s, token, pc);
    Assemble(Goto(s, token, pc));
  }

  /** What a new version of a row owes the loops, the mutex and the store. */
  ghost predicate Replaces(s: State, id: WorkflowId, row: Workflow)
    requires id in s.rows
  {
    var before := s.rows[id];
    && RowOk(row)
    && (row.status == Completed && before.status != Completed ==> id !in s.owners.running && s.mutex.Free?)
    && |before.stages| <= |row.stages|
    && (forall i | 0 <= i < |before.stages| :: row.stages[i].agent == before.stages[i].agent)
    && (s.mutex.Free? || forall i | 0 <= i < |row.stages| && row.stages[i].status == StageQueued ::
          i < |before.stages| && before.stages[i].status == StageQueued)
    && (forall token | token in s.loops && s.loops[token].id == id :: PcOk(row, s.loops[token].pc))
    && (!s.lost ==> forall i | 0 <= i < |row.stages| && row.stages[i].status == StageRunning ::
          WaitsFor(s, id, i))
  }

  lemma MutexSurvivesRow(s: State, id: WorkflowId, row: Workflow)
    requires MutexOk(s) && id in s.rows && Replaces(s, id, row)
    ensures MutexOk(WithRow(s, id, row))
  {
    hide RowOk, MayStart;
    var m := s.mutex;
    if m.Sending? && m.turn.NoTurn? && m.id == id {
      forall i: nat ensures !QueuedFor(row, m.agent, i) {
        assert !QueuedFor(s.rows[id], m.agent, i);
      }
    }
  }

  lemma WithRowKeeps(s: State, id: WorkflowId, row: Workflow)
    requires Inv(s) && id in s.rows && Replaces(s, id, row)
    ensures Inv(WithRow(s, id, row))
  {
    hide RowOk, MayStart;
    var n := WithRow(s, id, row);
    assert LoopsOk(n) by {
      forall t | t in n.loops ensures LoopOk(n, t) {
        assert LoopOk(s, t);
      }
    }
    OwnersFrame(s, n);
    assert RowsOk(n);
    assert CompletedUnowned(n);
    assert MutexOk(n) by {
      MutexSurvivesRow(s, id, row);
    }
    if !n.lost {
      forall j, i: nat | j in n.rows && i < |n.rows[j].stages| && n.rows[j].stages[i].status == StageRunning ensures WaitsFor(n, j, i) {
        if j != id {
          assert WaitsFor(s, j, i);
        }
      }
    }
  }

  lemma MutexKeeps(s: State, m: Mutex)
    requires Inv(s) && MutexOk(s.(mutex := m))
    ensures Inv(s.(mutex := m))
  {
    hide RowOk, HasQueued, MayStart;
    var n := s.(mutex := m);
    forall t | t in n.loops ensures LoopOk(n, t) {
      assert LoopOk(s, t);
    }
    OwnersFrame(s, n);
    if !n.lost {
      RunningFrame(s, n);
    }
  }

  lemma FreshToken(s: State)
    requires Inv(s)
    ensures s.next !in s.loops
    ensures forall id | id in s.owners.running :: s.owners.running[id] != s.next
  {
    hide RowOk, HasQueued, MayStart, IsDraft;
    forall t | t in s.loops ensures t < s.next {
      assert LoopOk(s, t);
    }
    forall id | id in s.owners.running ensures s.owners.running[id] != s.next {
      assert Owns(s, s.owners.running[id]);
    }
  }

  lemma ClaimOwns(s: State, id: WorkflowId, workspace: Workspace, pc: Pc, token: Token)
    requires s.next !in s.loops && id !in s.owners.running && workspace !in s.owners.workspaces && Owns(s, token)
    ensures Owns(Claimed(s, id, workspace, pc), token)
  {
  }

  /** An entry that is there after the claim is the claimer's or was there before. */
  lemma ClaimEntry(s: State, id: WorkflowId, workspace: Workspace, pc: Pc, i: WorkflowId)
    requires OwnersOk(s) && s.next !in s.loops && id !in s.owners.running && workspace !in s.owners.workspaces
    requires i in Claimed(s, id, workspace, pc).owners.running
    ensures var n := Claimed(s, id, workspace, pc);
            Owns(n, n.owners.running[i]) && n.loops[n.owners.running[i]].id == i
  {
    if i != id {
      assert Owns(s, s.owners.running[i]);
    }
  }

  lemma ClaimWorkspace(s: State, id: WorkflowId, workspace: Workspace, pc: Pc, w: Workspace)
    requires OwnersOk(s) && s.next !in s.loops && id !in s.owners.running && workspace !in s.owners.workspaces
    requires w in Claimed(s, id, workspace, pc).owners.workspaces
    ensures var n := Claimed(s, id, workspace, pc);
            && n.owners.workspaces[w] in n.owners.running && n.owners.running[n.owners.workspaces[w]] in n.loops
            && n.loops[n.owners.running[n.owners.workspaces[w]]].workspace == w
  {
    if w != workspace {
      assert Owns(s, s.owners.running[s.owners.workspaces[w]]);
    }
  }

  lemma ClaimCounts(s: State, id: WorkflowId, workspace: Workspace, pc: Pc)
    requires id !in s.owners.running && CanReserve(s.owners, workspace)
    ensures |Claimed(s, id, workspace, pc).owners.running| <= MAX_RUNNING && workspace !in s.owners.workspaces
  {
    assert Claimed(s, id, workspace, pc).owners.running.Keys == s.owners.running.Keys + {id};
  }

  lemma ClaimOwners(s: State, id: WorkflowId, workspace: Workspace, pc: Pc)
    requires OwnersOk(s) && s.next !in s.loops && id !in s.owners.running && CanReserve(s.owners, workspace)
    ensures OwnersOk(Claimed(s, id, workspace, pc)) && Owns(Claimed(s, id, workspace, pc), s.next)
    ensures forall t | Owns(s, t) :: Owns(Claimed(s, id, workspace, pc), t)
  {
    hide Claimed, CanReserve;
    var n := Claimed(s, id, workspace, pc);
    ClaimCounts(s, id, workspace, pc);
    forall i | i in n.owners.running ensures Owns(n, n.owners.running[i]) && n.loops[n.owners.running[i]].id == i {
      ClaimEntry(s, id, workspace, pc, i);
    }
    forall w | w in n.owners.workspaces
      ensures n.owners.workspaces[w] in n.owners.running && n.loops[n.owners.running[n.owners.workspaces[w]]].workspace == w
    {
      ClaimWorkspace(s, id, workspace, pc, w);
    }
    ClaimerOwns(s, id, workspace, pc);
    forall t | Owns(s, t) ensures Owns(n, t) {
      ClaimOwns(s, id, workspace, pc, t);
    }
  }

  lemma ClaimerOwns(s: State, id: WorkflowId, workspace: Workspace, pc: Pc)
    ensures Owns(Claimed(s, id, workspace, pc), s.next)
  {
  }

  lemma ClaimLoops(s: State, id: WorkflowId, workspace: Workspace, pc: Pc)
    requires LoopsOk(s) && s.next !in s.loops
    requires if pc.Reserved? then id !in s.rows && IsDraft(pc.draft) else pc == Top && id in s.rows
    requires Owns(Claimed(s, id, workspace, pc), s.next)
    requires forall t | Owns(s, t) :: Owns(Claimed(s, id, workspace, pc), t)
    ensures LoopsOk(Claimed(s, id, workspace, pc))
  {
    hide Owns, Claim, IsDraft, MayStart;
    var n := Claimed(s, id, workspace, pc);
    forall t | t in n.loops ensures LoopOk(n, t) {
      if t in s.loops {
        assert LoopOk(s, t);
      }
    }
  }

  lemma ClaimRest(s: State, id: WorkflowId, workspace: Workspace, pc: Pc)
    requires LoopsHaveRows(s) && RowsOk(s) && CompletedUnowned(s) && s.mutex.Free? && (!s.lost ==> RunningOwned(s))
    requires s.next !in s.loops && id !in s.owners.running
    requires forall i | i in s.owners.running :: s.owners.running[i] != s.next
    requires if pc.Reserved? then id !in s.rows else pc == Top && id in s.rows && s.rows[id].status != Completed
    ensures var n := Claimed(s, id, workspace, pc);
            LoopsHaveRows(n) && RowsOk(n) && CompletedUnowned(n) && MutexOk(n) && (!n.lost ==> RunningOwned(n))
  {
    hide RowOk;
    if !s.lost {
      RunningFrame(s, Claimed(s, id, workspace, pc));
    }
  }

  lemma ClaimKeeps(s: State, id: WorkflowId, workspace: Workspace, pc: Pc)
    requires Inv(s) && s.mutex.Free?
    requires id !in s.owners.running && CanReserve(s.owners, workspace)
    requires if pc.Reserved? then id !in s.rows && IsDraft(pc.draft) else pc == Top && id in s.rows && s.rows[id].status != Completed
    ensures Inv(Claimed(s, id, workspace, pc))
  {
    Parts(s);
    FreshToken(s);
    hide *;
    ClaimOwners(s, id, workspace, pc);
    ClaimLoops(s, id, workspace, pc);
    ClaimRest(s, id, workspace, pc);
    Assemble(Claimed(s, id, workspace, pc));
  }

  /** Nobody else's ownership is touched by a drop. */
  lemma DropOwners(s: State, token: Token, keep: bool)
    requires OwnersOk(s) && token in s.loops
    ensures OwnersOk(Dropped(s, token, keep))
    ensures forall t | t != token && Owns(s, t) :: Owns(Dropped(s, token, keep), t)
  {
    var n := Dropped(s, token, keep);
    var loop := s.loops[token];
    if loop.id in s.owners.running {
      assert Owns(s, s.owners.running[loop.id]);
      assert n.owners.running.Keys == s.owners.running.Keys || n.owners.running.Keys == s.owners.running.Keys - {loop.id};
    }
    forall t | t != token && Owns(s, t) ensures Owns(n, t) {
      assert s.owners.running[s.loops[t].id] == t;
    }
    forall i | i in n.owners.running ensures Owns(n, n.owners.running[i]) && n.loops[n.owners.running[i]].id == i {
      assert Owns(s, s.owners.running[i]);
    }
  }

  lemma DropLoops(s: State, token: Token, keep: bool)
    requires LoopsOk(s) && token in s.loops
    requires s.loops[token].pc == Exiting || !keep
    requires forall t | t != token && Owns(s, t) :: Owns(Dropped(s, token, keep), t)
    ensures LoopsOk(Dropped(s, token, keep))
  {
    hide Owns, Release, MayStart, IsDraft;
    var n := Dropped(s, token, keep);
    forall t | t in n.loops ensures LoopOk(n, t) {
      assert LoopOk(s, t);
    }
  }

  lemma DropRest(s: State, token: Token, keep: bool)
    requires LoopsHaveRows(s) && RowsOk(s) && CompletedUnowned(s) && s.mutex.Free? && (!s.lost ==> RunningOwned(s))
    requires token in s.loops && (s.loops[token].pc == Exiting || s.loops[token].pc.Reserved?)
    ensures var n := Dropped(s, token, keep);
            LoopsHaveRows(n) && RowsOk(n) && CompletedUnowned(n) && MutexOk(n) && (!n.lost ==> RunningOwned(n))
  {
    hide RowOk;
    if !s.lost {
      RunningFrame(s, Dropped(s, token, keep));
    }
  }

  lemma DropKeeps(s: State, token: Token, keep: bool)
    requires Inv(s) && s.mutex.Free? && token in s.loops
    requires s.loops[token].pc == Exiting || (s.loops[token].pc.Reserved? && !keep)
    ensures Inv(Dropped(s, token, keep))
  {
    hide *;
    Parts(s);
    DropOwners(s, token, keep);
    DropLoops(s, token, keep);
    DropRest(s, token, keep);
    Assemble(Dropped(s, token, keep));
  }
}
