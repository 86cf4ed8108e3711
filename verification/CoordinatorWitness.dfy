/** Runs that show what the coordinator does not promise: a queued turn can lose its owner, or be gone when its message returns. */
module CoordinatorWitness {
  import opened Coordinator
  import opened CoordinatorRuns
  import opened Ownership
  import opened WorkflowRows

  const DRAFT := [Stage(0, "codex", StageQueued)]
  const FRESH := Workflow(Queued, DRAFT, [WorkflowCreated], [Message("human", "team")])

  ghost function RowAtStart(): Workflow { StartStage(FRESH, 0) }
  ghost function RowAtFailure(): Workflow { FinishStage(RowAtStart(), 0, StageFailed) }
  ghost function RowWithFollowUp(): Workflow { AddMessageWithStage(RowAtFailure(), Message("human", "codex"), "codex") }

  const READ := Sending(7, "codex", "w", false, NoTurn, false)
  const WRITTEN := Sending(7, "codex", "w", false, QueuedTurn(1), true)

  /** Workflow 7 in workspace "w", its loop (token 0) at `pc`. */
  ghost function One(row: Workflow, pc: Pc, mutex: Mutex): State {
    State(map[7 := row], Owners(map[7 := 0], map["w" := 7]), map[0 := Loop(7, "w", pc)], {}, mutex, 1, false)
  }

  ghost function StateAt(k: nat): State
    requires k <= 11
  {
    match k
    case 0 => INIT
    case 1 => Claimed(INIT, 7, "w", Pc.Reserved(DRAFT))
    case 2 => One(FRESH, Top, Free)
    case 3 => One(FRESH, Picked(0), Free)
    case 4 => One(RowAtStart(), Started(0), Free)
    case 5 => One(RowAtFailure(), Errored, Free)
    case 6 => One(RowAtFailure(), Errored, READ)
    case 7 => One(RowWithFollowUp(), Errored, WRITTEN)
    case 8 => One(RowWithFollowUp(), Errored, Free)
    case 9 => One(RowWithFollowUp(), Failing, Free)
    case 10 => One(RowWithFollowUp().(status := Failed), Exiting, Free)
    case _ => State(map[7 := RowWithFollowUp().(status := Failed)], Owners(map[], map[]), map[], {}, Free, 1, false)
  }

  /** Create, run and fail the only stage; a message arrives before the loop has written `failed`. */
  ghost function ActionAt(k: nat): Action
    requires k < 11
  {
    match k
    case 0 => Reserve(7, "w", DRAFT)
    case 1 => CreateCommits(0)
    case 2 => Loads(0, true)
    case 3 => StageStarts(0)
    case 4 => StageEnds(0, StageFailed, true)
    case 5 => SendReads(7, "codex", "w")
    case 6 => SendWrites(true)
    case 7 => SendReturns
    case 8 => AfterError(0)
    case 9 => MarksFailed(0, true)
    case _ => Releases(0)
  }

  lemma FreshPicksZero()
    ensures Scan(FRESH) == Picked(0)
  {
    assert FirstQueued(FRESH, 0);
    assert forall i: nat | FirstQueued(FRESH, i) :: i == 0;
  }

  lemma NothingQueuedAfterFailure()
    ensures TurnOf(RowAtFailure(), "codex") == NoTurn && Participant(RowAtFailure(), "codex")
  {
    assert RowAtFailure().stages == [Stage(0, "codex", StageFailed)];
    assert RowAtFailure().stages[0].agent == "codex";
    assert forall i: nat :: !QueuedFor(RowAtFailure(), "codex", i);
  }

  lemma ReserveStep()
    ensures Stepped(INIT, Reserve(7, "w", DRAFT), Claimed(INIT, 7, "w", Pc.Reserved(DRAFT)))
  {
  }

  lemma CommitStep()
    ensures Stepped(Claimed(INIT, 7, "w", Pc.Reserved(DRAFT)), CreateCommits(0), One(FRESH, Top, Free))
  {
  }

  lemma LoadStep()
    ensures Stepped(One(FRESH, Top, Free), Loads(0, true), One(FRESH, Picked(0), Free))
  {
    FreshPicksZero();
    hide HasQueued, Scan, FirstQueued;
    assert map[0 := Loop(7, "w", Top)][0 := Loop(7, "w", Picked(0))] == map[0 := Loop(7, "w", Picked(0))];
  }

  lemma StartStep(row: Workflow)
    requires 0 < |row.stages|
    ensures Stepped(One(row, Picked(0), Free), StageStarts(0), One(StartStage(row, 0), Started(0), Free))
  {
    hide StartStage;
    assert map[0 := Loop(7, "w", Picked(0))][0 := Loop(7, "w", Started(0))] == map[0 := Loop(7, "w", Started(0))];
    assert map[7 := row][7 := StartStage(row, 0)] == map[7 := StartStage(row, 0)];
  }

  lemma EndStep(row: Workflow)
    requires 0 < |row.stages|
    ensures Stepped(One(row, Started(0), Free), StageEnds(0, StageFailed, true), One(FinishStage(row, 0, StageFailed), Errored, Free))
  {
    hide FinishStage;
    assert map[0 := Loop(7, "w", Started(0))][0 := Loop(7, "w", Errored)] == map[0 := Loop(7, "w", Errored)];
    assert map[7 := row][7 := FinishStage(row, 0, StageFailed)] == map[7 := FinishStage(row, 0, StageFailed)];
  }

  lemma FirstSteps(k: nat)
    requires k < 5
    ensures Stepped(StateAt(k), ActionAt(k), StateAt(k + 1))
  {
    hide Stepped, One, Claimed, StartStage, FinishStage;
    ReserveStep();
    CommitStep();
    LoadStep();
    StartStep(FRESH);
    StartKeepsStages(FRESH);
    EndStep(RowAtStart());
  }

  lemma StartKeepsStages(row: Workflow)
    requires 0 < |row.stages|
    ensures |StartStage(row, 0).stages| == |row.stages|
  {
  }

  lemma ReadStep()
    ensures Stepped(StateAt(5), SendReads(7, "codex", "w"), StateAt(6))
  {
    NothingQueuedAfterFailure();
    hide HasQueued, TurnOf, Scan, FirstQueued, NextPosition, RowAtFailure, Participant;
  }

  lemma WriteStep()
    ensures Stepped(StateAt(6), SendWrites(true), StateAt(7))
  {
    hide HasQueued, TurnOf, Scan, FirstQueued, AddMessageWithStage;
  }

  lemma ReturnStep()
    ensures Stepped(StateAt(7), SendReturns, StateAt(8))
  {
    hide HasQueued, TurnOf, Scan, FirstQueued, RowWithFollowUp;
  }

  lemma AfterErrorStep(row: Workflow)
    ensures Stepped(One(row, Errored, Free), AfterError(0), One(row, Failing, Free))
  {
    assert map[0 := Loop(7, "w", Errored)][0 := Loop(7, "w", Failing)] == map[0 := Loop(7, "w", Failing)];
  }

  lemma MarksFailedStep(row: Workflow)
    ensures Stepped(One(row, Failing, Free), MarksFailed(0, true), One(row.(status := Failed), Exiting, Free))
  {
    assert map[0 := Loop(7, "w", Failing)][0 := Loop(7, "w", Exiting)] == map[0 := Loop(7, "w", Exiting)];
    assert map[7 := row][7 := row.(status := Failed)] == map[7 := row.(status := Failed)];
  }

  lemma ReleasesStep(row: Workflow)
    ensures Stepped(One(row, Exiting, Free), Releases(0), State(map[7 := row], Owners(map[], map[]), map[], {}, Free, 1, false))
  {
    assert map[7 := 0] - {7} == map[] && map["w" := 7] - {"w"} == map[] && map[0 := Loop(7, "w", Exiting)] - {0} == map[];
  }

  lemma FailSteps(k: nat)
    requires 8 <= k < 11
    ensures Stepped(StateAt(k), ActionAt(k), StateAt(k + 1))
  {
    hide Stepped, One, RowWithFollowUp;
    AfterErrorStep(RowWithFollowUp());
    MarksFailedStep(RowWithFollowUp());
    ReleasesStep(RowWithFollowUp().(status := Failed));
  }

  lemma EachStep(k: nat)
    requires k < 11
    ensures Stepped(StateAt(k), ActionAt(k), StateAt(k + 1))
  {
    hide Stepped, StateAt;
    if k < 5 {
      FirstSteps(k);
    } else if k == 5 {
      ReadStep();
    } else if k == 6 {
      WriteStep();
    } else if k == 7 {
      ReturnStep();
    } else {
      FailSteps(k);
    }
  }

  lemma LeftQueued()
    ensures QueuedFor(RowWithFollowUp(), "codex", 1)
  {
  }

  /**
    A successful message can strand its turn: the loop has already failed but still holds its entry, so
    no new loop is started, and after the old one is gone the turn is queued with nobody to run it.
  */
  lemma StrandedTurn() returns (states: seq<State>, actions: seq<Action>)
    ensures IsRun(states, actions) && |actions| == 11
    ensures SendSection(states, actions, 5, 7, 7, "codex")
    ensures 7 in states[11].rows && QueuedFor(states[11].rows[7], "codex", 1)
    ensures states[11].owners.running == map[] && states[11].loops == map[] && states[11].mutex.Free?
  {
    states := seq(12, k requires 0 <= k < 12 => StateAt(k));
    actions := seq(11, k requires 0 <= k < 11 => ActionAt(k));
    assert IsRun(states, actions) by {
      hide Stepped;
      forall k | 0 <= k < |actions| ensures Stepped(states[k], actions[k], states[k + 1]) {
        EachStep(k);
      }
    }
    hide Stepped, RowWithFollowUp, IsRun;
    LeftQueued();
  }

  // ---- a turn cancelled inside the lock section -------------------------------------------------

  const DURING := Sending(7, "codex", "w", false, QueuedTurn(0), false)
  const COMMITTED := Sending(7, "codex", "w", false, QueuedTurn(0), true)

  ghost function RowCancelled(): Workflow { CancelQueuedStages(FRESH) }
  ghost function RowAnswered(): Workflow { AddMessage(RowCancelled(), Message("human", "codex")) }

  /** Its loop's context is cancelled, and the loop has not looked yet. */
  ghost function Cancelling(row: Workflow, mutex: Mutex): State {
    One(row, Top, mutex).(cancelled := {0})
  }

  ghost function CancelledStateAt(k: nat): State
    requires k <= 7
  {
    match k
    case 0 => INIT
    case 1 => Claimed(INIT, 7, "w", Pc.Reserved(DRAFT))
    case 2 => One(FRESH, Top, Free)
    case 3 => Cancelling(FRESH, Free)
    case 4 => Cancelling(FRESH, DURING)
    case 5 => Cancelling(RowCancelled(), DURING)
    case 6 => Cancelling(RowAnswered(), COMMITTED)
    case _ => Cancelling(RowAnswered(), Free)
  }

  /** `Cancel` has cancelled the context under the lock; a message's read sees the first turn queued; `Cancel` empties the queue. */
  ghost function CancelledActionAt(k: nat): Action
    requires k < 7
  {
    match k
    case 0 => Reserve(7, "w", DRAFT)
    case 1 => CreateCommits(0)
    case 2 => CancelContext(7)
    case 3 => SendReads(7, "codex", "w")
    case 4 => CancelQueue(7)
    case 5 => SendWrites(true)
    case _ => SendReturns
  }

  lemma FreshTurnIsZero()
    ensures TurnOf(FRESH, "codex") == QueuedTurn(0) && Participant(FRESH, "codex")
  {
    assert FRESH.stages[0].agent == "codex";
    assert QueuedFor(FRESH, "codex", 0);
    assert forall i: nat | QueuedFor(FRESH, "codex", i) :: i == 0;
  }

  lemma ContextStep(row: Workflow)
    ensures Stepped(One(row, Top, Free), CancelContext(7), Cancelling(row, Free))
  {
    assert {} + {0} == {0};
  }

  lemma ReadSeesTurn()
    ensures Stepped(Cancelling(FRESH, Free), SendReads(7, "codex", "w"), Cancelling(FRESH, DURING))
  {
    FreshTurnIsZero();
    hide HasQueued, TurnOf, Scan, FirstQueued, NextPosition, Participant;
  }

  lemma CancelInside(row: Workflow)
    ensures Stepped(Cancelling(row, DURING), CancelQueue(7), Cancelling(CancelQueuedStages(row), DURING))
  {
    hide CancelQueuedStages;
    assert map[7 := row][7 := CancelQueuedStages(row)] == map[7 := CancelQueuedStages(row)];
  }

  lemma WriteToTurn(row: Workflow)
    ensures Stepped(Cancelling(row, DURING), SendWrites(true), Cancelling(AddMessage(row, Message("human", "codex")), COMMITTED))
  {
    hide AddMessage;
    assert map[7 := row][7 := AddMessage(row, Message("human", "codex"))] == map[7 := AddMessage(row, Message("human", "codex"))];
  }

  lemma ReturnKeepsLoop(row: Workflow)
    ensures Stepped(Cancelling(row, COMMITTED), SendReturns, Cancelling(row, Free))
  {
  }

  lemma EachCancelledStep(k: nat)
    requires k < 7
    ensures Stepped(CancelledStateAt(k), CancelledActionAt(k), CancelledStateAt(k + 1))
  {
    hide Stepped, One, Claimed, Cancelling, AddMessage, CancelQueuedStages;
    ReserveStep();
    CommitStep();
    ContextStep(FRESH);
    ReadSeesTurn();
    CancelInside(FRESH);
    WriteToTurn(RowCancelled());
    ReturnKeepsLoop(RowAnswered());
  }

  /**
    A message can succeed without leaving a turn to run: it relied on a queued turn, a concurrent
    cancel emptied the queue inside the lock section, and the message was written all the same.
  */
  lemma CancelledTurn() returns (states: seq<State>, actions: seq<Action>)
    ensures IsRun(states, actions) && |actions| == 7
    ensures SendSection(states, actions, 3, 6, 7, "codex")
    ensures 7 in states[7].rows && !HasQueued(states[7].rows[7])
    ensures |states[7].rows[7].messages| == 2 && 7 in states[7].owners.running
  {
    states := seq(8, k requires 0 <= k < 8 => CancelledStateAt(k));
    actions := seq(7, k requires 0 <= k < 7 => CancelledActionAt(k));
    assert IsRun(states, actions) by {
      hide Stepped;
      forall k | 0 <= k < |actions| ensures Stepped(states[k], actions[k], states[k + 1]) {
        EachCancelledStep(k);
      }
    }
    hide Stepped, IsRun;
  }
}
