/**
  The interleaved coordinator refines the undisturbed loop of RunQueue: while nothing reaches into one
  workflow, its loop does to it what `Drain` says, whatever happens to all the others.
*/
module CoordinatorDrain {
  import opened Coordinator
  import opened CoordinatorInvariant
  import opened CoordinatorRuns
  import opened CoordinatorSteps
  import opened Ownership
  import opened RunQueue
  import opened WorkflowRows

  /** The step is one of the run loop `token`. */
  predicate ByLoop(a: Action, token: Token) {
    match a
    case SeesCancel(t) => t == token
    case Loads(t, _) => t == token
    case RechecksQueue(t, _) => t == token
    case Completes(t, _) => t == token
    case StageAborts(t, _) => t == token
    case StageStarts(t) => t == token
    case StageEnds(t, _, _) => t == token
    case AfterError(t) => t == token
    case MarksFailed(t, _) => t == token
    case Releases(t) => t == token
    case _ => false
  }

  /**
    The step leaves workflow `id` to its loop: nobody cancels its queue or status or messages one of
    its agents, the loop sees no cancel and none of its own reads and writes fails, and its stages exit
    as `exits` says. Entries of the room that start no turn (`Posts`) and everything that other
    workflows do are allowed.
  */
  ghost predicate Undisturbed(s: State, a: Action, id: WorkflowId, token: Token, exits: nat -> bool) {
    match a
    case Loads(t, ok) => t == token ==> ok
    case RechecksQueue(t, ok) => t == token ==> ok
    case Completes(t, ok) => t == token ==> ok
    case MarksFailed(t, ok) => t == token ==> ok
    case SeesCancel(t) => t != token
    case AfterError(t) => t == token ==> token !in s.cancelled
    case StageAborts(t, _) => t != token
    case StageEnds(t, status, ok) =>
      t == token ==>
        ok && token in s.loops && s.loops[token].pc.Started?
        && status == if exits(s.loops[token].pc.stage) then StageCompleted else StageFailed
    case CancelQueue(w) => w != id
    case CancelStatus(w) => w != id
    case SendReads(w, _, _) => w != id
    case SendWrites(_) => s.mutex.Sending? ==> s.mutex.id != id
    case SendReturns => s.mutex.Sending? ==> s.mutex.id != id
    case Restart => false
    case _ => true
  }

  /** A row without its messages, which the loop neither reads nor writes. */
  function Core(row: Workflow): Workflow {
    row.(messages := [])
  }

  lemma {:induction false} DrainIgnoresMessages(row: Workflow, exits: nat -> bool)
    ensures Drain(Core(row), exits) == Core(Drain(row, exits))
    decreases |row.stages| - NextQueued(row.stages)
  {
    var i := NextQueued(row.stages);
    if i < |row.stages| {
      TurnMovesOn(row, exits);
      TurnMovesOn(Core(row), exits);
      assert RunQueue.Turn(Core(row), i, exits) == Core(RunQueue.Turn(row, i, exits));
      if exits(i) {
        DrainIgnoresMessages(RunQueue.Turn(row, i, exits), exits);
      }
    }
  }

  // ---- what the loop still has to do -----------------------------------------------------------

  /** The rest of a turn that has started, and then of the queue. */
  function AfterTurn(row: Workflow, i: nat, exits: nat -> bool): Workflow
    requires i < |row.stages|
  {
    var next := FinishStage(row, i, if exits(i) then StageCompleted else StageFailed);
    if exits(i) then Drain(next, exits) else next.(status := Failed)
  }

  lemma DrainIsAfterTurn(row: Workflow, exits: nat -> bool)
    requires NextQueued(row.stages) < |row.stages|
    ensures Drain(row, exits) == AfterTurn(StartStage(row, NextQueued(row.stages)), NextQueued(row.stages), exits)
  {
  }

  /** How a row ends if its loop stands at `pc`. */
  function EndingAt(row: Workflow, pc: Pc, exits: nat -> bool): Workflow {
    match pc
    case Top => Drain(row, exits)
    case Picked(_) => Drain(row, exits)
    case Started(i) => if i < |row.stages| then AfterTurn(row, i, exits) else row
    case NoneQueued => row.(status := Completed)
    case Errored => row.(status := Failed)
    case Failing => row.(status := Failed)
    case _ => row
  }

  /** How the workflow ends if its loop goes on undisturbed. */
  ghost function Ending(s: State, id: WorkflowId, token: Token, exits: nat -> bool): Workflow
    requires id in s.rows
  {
    EndingAt(Core(s.rows[id]), if token in s.loops then s.loops[token].pc else Exiting, exits)
  }

  /** How many steps of its own the loop can still take. */
  function RankAt(row: Workflow, pc: Pc, completing: bool): nat {
    var left := |row.stages| - NextQueued(row.stages);
    match pc
    case Top => 4 * left + 5
    case Picked(_) => 4 * left + 4
    case Started(_) => 4 * left + 6
    case NoneQueued => if completing then 3 else 4
    case Errored => 3
    case Failing => 2
    case _ => 1
  }

  ghost function Rank(s: State, id: WorkflowId, token: Token): nat
    requires id in s.rows
  {
    if token in s.loops then RankAt(s.rows[id], s.loops[token].pc, s.mutex == Completing(token)) else 0
  }

  /** What a loop at `pc` knows of the queue. */
  predicate KnowsQueue(row: Workflow, pc: Pc) {
    match pc
    case Picked(i) => i == NextQueued(row.stages) < |row.stages|
    case Started(i) => i < NextQueued(row.stages)
    case NoneQueued => NextQueued(row.stages) == |row.stages|
    case _ => true
  }

  /** The loop `token` is the only one there is for workflow `id`, or it is done. */
  ghost predicate Alone(s: State, id: WorkflowId, token: Token) {
    && id in s.rows && token < s.next
    && (id in s.owners.running ==> s.owners.running[id] == token)
    && (token in s.loops ==> s.loops[token].id == id && !s.loops[token].pc.Reserved? && KnowsQueue(s.rows[id], s.loops[token].pc))
  }

  // ---- other steps -----------------------------------------------------------------------------

  lemma OthersLeaveLoop(s: State, a: Action, n: State, token: Token)
    requires Stepped(s, a, n) && a != Restart && !ByLoop(a, token)
    requires token < s.next && (token in s.loops ==> !s.loops[token].pc.Reserved?)
    ensures token in n.loops <==> token in s.loops
    ensures token in s.loops ==> n.loops[token] == s.loops[token]
  {
    hide LoopsHaveRows, HasQueued, QueuedFor, TurnOf, Scan, Participant, IsDraft, CanReserve, Claim, Release, Rollback, StartStage,
         FinishStage, CancelQueuedStages, AddMessage, AddMessageWithStage, MarkInterrupted, SetWorkflowStatus, CreateWorkflow, FirstQueued;
  }

  lemma OthersLeaveMutex(s: State, a: Action, n: State, token: Token)
    requires Stepped(s, a, n) && a != Restart && !ByLoop(a, token)
    ensures s.mutex == Completing(token) <==> n.mutex == Completing(token)
    ensures n.next >= s.next
  {
    hide LoopsHaveRows, HasQueued, QueuedFor, TurnOf, Scan, Participant, IsDraft, CanReserve, Claim, Release, Rollback, StartStage,
         FinishStage, CancelQueuedStages, AddMessage, AddMessageWithStage, MarkInterrupted, SetWorkflowStatus, CreateWorkflow, FirstQueued;
  }

  lemma EntriesOnlyGo(s: State, a: Action, n: State, id: WorkflowId)
    requires Stepped(s, a, n) && !a.Reserve? && a != SendReturns && a != Restart
    ensures id in n.owners.running ==> id in s.owners.running && n.owners.running[id] == s.owners.running[id]
  {
    hide LoopsHaveRows, HasQueued, QueuedFor, TurnOf, Scan, Participant, IsDraft, CanReserve, Claim, StartStage, FinishStage,
         CancelQueuedStages, AddMessage, AddMessageWithStage, MarkInterrupted, SetWorkflowStatus, CreateWorkflow, FirstQueued;
  }

  lemma ClaimsOne(s: State, a: Action, n: State, id: WorkflowId)
    requires Stepped(s, a, n) && id in s.rows && (a.Reserve? || a == SendReturns)
    requires a == SendReturns && s.mutex.Sending? ==> s.mutex.id != id
    ensures id in n.owners.running ==> id in s.owners.running && n.owners.running[id] == s.owners.running[id]
  {
    hide LoopsHaveRows, IsDraft, CanReserve;
  }

  /** Nobody becomes the owner of a stored workflow but by a message to it. */
  lemma NoNewOwner(s: State, a: Action, n: State, id: WorkflowId)
    requires Stepped(s, a, n) && id in s.rows && a != Restart
    requires a == SendReturns && s.mutex.Sending? ==> s.mutex.id != id
    ensures id in n.owners.running ==> id in s.owners.running && n.owners.running[id] == s.owners.running[id]
  {
    hide Stepped;
    if a.Reserve? || a == SendReturns {
      ClaimsOne(s, a, n, id);
    } else {
      EntriesOnlyGo(s, a, n, id);
    }
  }

  lemma OthersLeaveRow(s: State, a: Action, n: State, id: WorkflowId, token: Token, exits: nat -> bool)
    requires Inv(s) && Stepped(s, a, n) && Alone(s, id, token) && Undisturbed(s, a, id, token, exits) && !ByLoop(a, token)
    ensures Core(RowAfter(s, a, id)) == Core(s.rows[id])
  {
    hide Inv, KnowsQueue, Apply;
    if a.Completes? {
      CompletionFacts(s, a.token);
    } else if a.StageAborts? || a.StageStarts? || a.StageEnds? || a.MarksFailed? {
      WorksAlone(s, a.token);
    }
  }

  /** A loop that is not on its way out owns its workflow. */
  lemma WorksAlone(s: State, token: Token)
    requires Inv(s) && token in s.loops && s.loops[token].pc != Exiting
    ensures s.loops[token].id in s.owners.running && s.owners.running[s.loops[token].id] == token
  {
    assert LoopOk(s, token);
    hide RowOk, OwnersOk, RowsOk, RunningOwned, HasQueued;
  }

  // ---- its own steps ---------------------------------------------------------------------------

  lemma LoadsMove(row: Workflow, exits: nat -> bool)
    requires RowOk(row)
    ensures Scan(row) == if NextQueued(row.stages) < |row.stages| then Picked(NextQueued(row.stages)) else NoneQueued
    ensures EndingAt(Core(row), Scan(row), exits) == EndingAt(Core(row), Top, exits)
  {
    var i := NextQueued(row.stages);
    if i < |row.stages| {
      assert FirstQueued(row, i);
    }
    hide StartsIncrease, StartedBehindQueue, Drain;
    OnlyHead(row);
    EmptyDrain(Core(row), exits);
  }

  lemma OnlyHead(row: Workflow)
    requires PositionsAreIndices(row)
    ensures forall i: nat | FirstQueued(row, i) :: i == NextQueued(row.stages)
  {
    forall i: nat | FirstQueued(row, i) ensures i == NextQueued(row.stages) {
      var h := NextQueued(row.stages);
      assert h <= i;
      assert row.stages[h].position == h && row.stages[i].position == i;
    }
  }

  lemma EmptyDrain(row: Workflow, exits: nat -> bool)
    ensures NextQueued(row.stages) == |row.stages| ==> Drain(row, exits) == row.(status := Completed)
  {
  }

  lemma StartMove(row: Workflow, i: nat, exits: nat -> bool)
    requires i == NextQueued(row.stages) < |row.stages|
    ensures i < NextQueued(StartStage(row, i).stages)
    ensures EndingAt(Core(StartStage(row, i)), Started(i), exits) == EndingAt(Core(row), Top, exits)
  {
    assert forall j | 0 <= j <= i :: StartStage(row, i).stages[j].status != StageQueued;
    DrainIsAfterTurn(Core(row), exits);
    assert Core(StartStage(row, i)) == StartStage(Core(row), i);
    hide Drain;
  }

  lemma EndMove(row: Workflow, i: nat, exits: nat -> bool)
    requires i < NextQueued(row.stages)
    ensures var (status, pc) := if exits(i) then (StageCompleted, Top) else (StageFailed, Errored);
            && NextQueued(FinishStage(row, i, status).stages) == NextQueued(row.stages)
            && EndingAt(Core(FinishStage(row, i, status)), pc, exits) == EndingAt(Core(row), Started(i), exits)
  {
    var status := if exits(i) then StageCompleted else StageFailed;
    SameQueue(row.stages, FinishStage(row, i, status).stages);
    assert Core(FinishStage(row, i, status)) == FinishStage(Core(row), i, status).(messages := []);
    hide Drain;
  }

  lemma SameQueue(a: seq<Stage>, b: seq<Stage>)
    requires |a| == |b| && forall i | 0 <= i < |a| :: a[i].status == StageQueued <==> b[i].status == StageQueued
    ensures NextQueued(a) == NextQueued(b)
  {
  }

  lemma NothingQueued(row: Workflow)
    ensures NextQueued(row.stages) == |row.stages| <==> !HasQueued(row)
  {
    hide NextQueued;
  }

  /** Where a step of the loop leaves it. */
  ghost function PcAfter(s: State, a: Action, token: Token): Pc
    requires token in s.loops && s.loops[token].id in s.rows
  {
    match a
    case Loads(_, ok) => if ok then Scan(Row(s, token)) else Exiting
    case RechecksQueue(_, ok) => if !ok then Exiting else if HasQueued(Row(s, token)) then Top else NoneQueued
    case StageAborts(_, _) => Errored
    case StageStarts(_) => if s.loops[token].pc.Picked? then Started(s.loops[token].pc.stage) else Top
    case StageEnds(_, status, ok) => if ok && status == StageCompleted then Top else Errored
    case AfterError(_) => if token in s.cancelled then Exiting else Failing
    case _ => Exiting
  }

  lemma OwnEffect(s: State, a: Action, n: State, token: Token)
    requires Stepped(s, a, n) && ByLoop(a, token) && token in s.loops && s.loops[token].id in s.rows
    ensures n.next == s.next
    ensures if a.Releases? then token !in n.loops
            else token in n.loops && n.loops[token] == s.loops[token].(pc := PcAfter(s, a, token))
    ensures n.mutex == Completing(token) <==>
            (s.mutex == Completing(token) && !a.Completes?) || (a.RechecksQueue? && a.ok && !HasQueued(Row(s, token)))
  {
    hide LoopsHaveRows, HasQueued, Scan, Release, StartStage, FinishStage, SetWorkflowStatus, FirstQueued;
  }

  /** Where the loop stands when it takes a step, and what it sees there. */
  lemma StandsAt(s: State, a: Action, n: State, token: Token)
    requires Inv(s) && Stepped(s, a, n) && ByLoop(a, token)
    ensures token in s.loops && s.loops[token].id in s.rows && RowOk(Row(s, token))
    ensures a.SeesCancel? || a.Loads? ==> s.loops[token].pc == Top
    ensures a.RechecksQueue? ==> s.loops[token].pc == NoneQueued && s.mutex.Free?
    ensures a.Completes? ==> s.loops[token].pc == NoneQueued && s.mutex == Completing(token)
    ensures a.StageAborts? || a.StageStarts? ==> s.loops[token].pc.Picked?
    ensures a.StageEnds? ==> s.loops[token].pc.Started?
    ensures a.AfterError? ==> s.loops[token].pc == Errored
    ensures a.MarksFailed? ==> s.loops[token].pc == Failing
    ensures a.Releases? ==> s.loops[token].pc == Exiting
    ensures s.mutex == Completing(token) ==> a.Completes?
  {
    if s.mutex == Completing(token) {
      CompletionFacts(s, token);
    }
    Parts(s);
    hide Inv, OwnersOk, LoopsOk, CompletedUnowned, MutexOk, RunningOwned, RowOk, HasQueued, Participant, IsDraft, Apply;
  }

  /** What the move does to the row, the program counter and the rest. */
  lemma OwnMove(s: State, a: Action, n: State, id: WorkflowId, token: Token, exits: nat -> bool)
    requires Inv(s) && Stepped(s, a, n) && Alone(s, id, token) && Undisturbed(s, a, id, token, exits) && ByLoop(a, token)
    requires token in s.loops && id in n.rows && !a.Releases?
    requires n.rows[id] == RowAfter(s, a, id)
    ensures var row, pc, next, to := s.rows[id], s.loops[token].pc, n.rows[id], PcAfter(s, a, token);
            && KnowsQueue(next, to) && !to.Reserved?
            && EndingAt(Core(next), to, exits) == EndingAt(Core(row), pc, exits)
  {
    hide Inv, Stepped, Apply, RowOk, HasQueued, Scan, Drain, AfterTurn, StartStage, FinishStage;
    StandsAt(s, a, n, token);
    var row := s.rows[id];
    match a {
      case Loads(_, _) => LoadsMove(row, exits);
      case RechecksQueue(_, _) => NothingQueued(row);
      case StageStarts(_) => StartMove(row, s.loops[token].pc.stage, exits);
      case StageEnds(_, _, _) => EndMove(row, s.loops[token].pc.stage, exits);
      case _ =>
    }
  }

  lemma OwnRank(s: State, a: Action, n: State, id: WorkflowId, token: Token, exits: nat -> bool)
    requires Inv(s) && Stepped(s, a, n) && Alone(s, id, token) && Undisturbed(s, a, id, token, exits) && ByLoop(a, token)
    requires token in s.loops && id in n.rows && !a.Releases?
    requires n.rows[id] == RowAfter(s, a, id)
    ensures var before, after := s.mutex == Completing(token), a.RechecksQueue? && !HasQueued(s.rows[id]);
            RankAt(n.rows[id], PcAfter(s, a, token), after) < RankAt(s.rows[id], s.loops[token].pc, before)
  {
    hide Inv, Stepped, Apply, RowOk, HasQueued, Scan, Drain, AfterTurn, StartStage, FinishStage, EndingAt;
    StandsAt(s, a, n, token);
    var row := s.rows[id];
    match a {
      case Loads(_, _) => LoadsMove(row, exits);
      case RechecksQueue(_, _) => NothingQueued(row);
      case StageStarts(_) =>
        StartMove(row, s.loops[token].pc.stage, exits);
        SameLength(row, s.loops[token].pc.stage, StageRunning);
      case StageEnds(_, _, _) =>
        EndMove(row, s.loops[token].pc.stage, exits);
        SameLength(row, s.loops[token].pc.stage, if exits(s.loops[token].pc.stage) then StageCompleted else StageFailed);
      case _ =>
    }
  }

  lemma SameLength(row: Workflow, i: nat, status: StageStatus)
    requires i < |row.stages|
    ensures |StartStage(row, i).stages| == |row.stages| && |FinishStage(row, i, status).stages| == |row.stages|
  {
  }

  // ---- every step ------------------------------------------------------------------------------

  /** An undisturbed step keeps what the workflow will end as, and if it is the loop's own, brings the end nearer. */
  lemma StepFollows(s: State, a: Action, n: State, id: WorkflowId, token: Token, exits: nat -> bool)
    requires Inv(s) && Stepped(s, a, n) && Alone(s, id, token) && Undisturbed(s, a, id, token, exits)
    ensures Alone(n, id, token) && Ending(n, id, token, exits) == Ending(s, id, token, exits)
    ensures Rank(n, id, token) + (if ByLoop(a, token) then 1 else 0) <= Rank(s, id, token)
  {
    hide Inv, Stepped, Apply, RowAfter, Core, EndingAt, RankAt, KnowsQueue, HasQueued, PcAfter;
    StepRow(s, a, n, id);
    NotARestart(s, a, id, token, exits);
    NoNewOwner(s, a, n, id);
    if ByLoop(a, token) {
      StandsAt(s, a, n, token);
      OwnEffect(s, a, n, token);
      if a.Releases? {
        LastStep(s, a, n, id);
      } else {
        OwnMove(s, a, n, id, token, exits);
        OwnRank(s, a, n, id, token, exits);
      }
    } else {
      OthersLeaveLoop(s, a, n, token);
      OthersLeaveMutex(s, a, n, token);
      OthersLeaveRow(s, a, n, id, token, exits);
      SameCore(s.rows[id], n.rows[id]);
    }
  }

  lemma LastStep(s: State, a: Action, n: State, id: WorkflowId)
    requires Stepped(s, a, n) && id in s.rows && a.Releases?
    ensures RowAfter(s, a, id) == s.rows[id]
    ensures RankAt(s.rows[id], Exiting, false) == RankAt(s.rows[id], Exiting, true) == 1
  {
  }

  /** Loops look at a row only below its messages. */
  lemma SameCore(row: Workflow, next: Workflow)
    requires Core(row) == Core(next)
    ensures forall pc :: KnowsQueue(next, pc) == KnowsQueue(row, pc)
    ensures forall pc, completing :: RankAt(next, pc, completing) == RankAt(row, pc, completing)
  {
    assert Core(row).stages == row.stages && Core(next).stages == next.stages;
  }

  lemma NotARestart(s: State, a: Action, id: WorkflowId, token: Token, exits: nat -> bool)
    requires Undisturbed(s, a, id, token, exits)
    ensures a != Restart && (a == SendReturns && s.mutex.Sending? ==> s.mutex.id != id)
  {
  }

  // ---- the run ---------------------------------------------------------------------------------

  function OwnSteps(actions: seq<Action>, i: nat, j: nat, token: Token): nat
    requires i <= j <= |actions|
  {
    if i == j then 0 else OwnSteps(actions, i, j - 1, token) + if ByLoop(actions[j - 1], token) then 1 else 0
  }

  lemma {:induction false} RunFollows(states: seq<State>, actions: seq<Action>, i: nat, j: nat, id: WorkflowId, token: Token, exits: nat -> bool)
    requires IsRun(states, actions) && i <= j < |states| && Alone(states[i], id, token)
    requires forall k | i <= k < j :: Undisturbed(states[k], actions[k], id, token, exits)
    ensures Alone(states[j], id, token) && Ending(states[j], id, token, exits) == Ending(states[i], id, token, exits)
    ensures Rank(states[j], id, token) + OwnSteps(actions, i, j, token) <= Rank(states[i], id, token)
    decreases j
  {
    hide Inv, Stepped, Undisturbed, Ending, Rank, ByLoop;
    if i < j {
      RunFollows(states, actions, i, j - 1, id, token, exits);
      AlwaysInv(states, actions, j - 1);
      StepFollows(states[j - 1], actions[j - 1], states[j], id, token, exits);
    }
  }

  lemma OwnerIsAlone(s: State, id: WorkflowId)
    requires Inv(s) && id in s.rows && id in s.owners.running && At(s, s.owners.running[id], Top)
    ensures Alone(s, id, s.owners.running[id])
  {
    var token := s.owners.running[id];
    assert LoopOk(s, token);
    assert Owns(s, token) && s.loops[token].id == id;
  }

  /**
    From any state of any run in which a workflow's loop is at its head, and for as long as the workflow
    is left to it: the loop takes at most four steps for each stage and five more, and once it is done
    the row is what draining its queue makes of it, up to messages posted meanwhile; whatever the other
    workflow, other messages, cancels and starting or failing `Create` calls do in between.
  */
  lemma LoopDrains(states: seq<State>, actions: seq<Action>, i: nat, j: nat, id: WorkflowId, exits: nat -> bool)
    requires IsRun(states, actions) && i <= j < |states|
    requires id in states[i].rows && id in states[i].owners.running && At(states[i], states[i].owners.running[id], Top)
    requires forall k | i <= k < j :: Undisturbed(states[k], actions[k], id, states[i].owners.running[id], exits)
    ensures var token := states[i].owners.running[id];
            && id in states[j].rows
            && OwnSteps(actions, i, j, token) <= 4 * |states[i].rows[id].stages| + 5
            && (token !in states[j].loops || states[j].loops[token].pc == Exiting ==>
                  Core(states[j].rows[id]) == Core(Drain(states[i].rows[id], exits)))
  {
    hide Inv, Stepped, Undisturbed, Drain, Core;
    var token := states[i].owners.running[id];
    AlwaysInv(states, actions, i);
    OwnerIsAlone(states[i], id);
    RunFollows(states, actions, i, j, id, token, exits);
    DrainIgnoresMessages(states[i].rows[id], exits);
  }

  /**
    The loop is never stuck: as long as it has not returned, it can take an undisturbed step, unless
    another thread holds the mutex and the loop is waiting for it.
  */
  lemma LoopCanGoOn(s: State, id: WorkflowId, token: Token, exits: nat -> bool)
    requires Inv(s) && Alone(s, id, token) && token in s.loops && token !in s.cancelled
    requires s.loops[token].pc in {NoneQueued, Exiting} ==> s.mutex.Free? || s.mutex == Completing(token)
    ensures exists a :: ByLoop(a, token) && Enabled(s, a) && Undisturbed(s, a, id, token, exits)
  {
    hide Inv, Alone;
    NotCompleting(s, token);
    StartedStands(s, id, token);
    var a := NextStep(s, token, exits);
    assert ByLoop(a, token) && Enabled(s, a) && Undisturbed(s, a, id, token, exits);
  }

  /** What a loop that is left alone does next. */
  ghost function NextStep(s: State, token: Token, exits: nat -> bool): Action
    requires token in s.loops
  {
    match s.loops[token].pc
    case Top => Loads(token, true)
    case Picked(_) => StageStarts(token)
    case Started(i) => StageEnds(token, if exits(i) then StageCompleted else StageFailed, true)
    case NoneQueued => if s.mutex.Free? then RechecksQueue(token, true) else Completes(token, true)
    case Errored => AfterError(token)
    case Failing => MarksFailed(token, true)
    case _ => Releases(token)
  }

  lemma StartedStands(s: State, id: WorkflowId, token: Token)
    requires Alone(s, id, token) && token in s.loops
    ensures !s.loops[token].pc.Reserved?
  {
  }

  lemma NotCompleting(s: State, token: Token)
    requires Inv(s) && token in s.loops
    ensures s.mutex == Completing(token) ==> s.loops[token].pc == NoneQueued
  {
    if s.mutex == Completing(token) {
      CompletionFacts(s, token);
    }
  }
}
