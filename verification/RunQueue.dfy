/** What one undisturbed run loop does to its workflow (`run` and `runStage` of coordinator/manager.go). */
module RunQueue {
  import opened WorkflowRows

  /** The index of the first queued stage, or the number of stages. */
  function NextQueued(stages: seq<Stage>): (i: nat)
    ensures i <= |stages|
    ensures forall j | 0 <= j < i :: stages[j].status != StageQueued
    ensures i < |stages| ==> stages[i].status == StageQueued
  {
    if stages == [] || stages[0].status == StageQueued then 0 else 1 + NextQueued(stages[1..])
  }

  /** One turn: the stage starts, and ends as `exits` says (true for exit code 0). */
  function Turn(row: Workflow, i: nat, exits: nat -> bool): Workflow
    requires i < |row.stages|
  {
    FinishStage(StartStage(row, i), i, if exits(i) then StageCompleted else StageFailed)
  }

  lemma TurnMovesOn(row: Workflow, exits: nat -> bool)
    requires NextQueued(row.stages) < |row.stages|
    ensures NextQueued(row.stages) < NextQueued(Turn(row, NextQueued(row.stages), exits).stages)
  {
    var i := NextQueued(row.stages);
    var next := Turn(row, i, exits);
    assert forall j | 0 <= j <= i :: next.stages[j].status != StageQueued;
  }

  function Drain(row: Workflow, exits: nat -> bool): Workflow
    decreases |row.stages| - NextQueued(row.stages)
  {
    var i := NextQueued(row.stages);
    if i == |row.stages| then row.(status := Completed)
    else
      TurnMovesOn(row, exits);
      var next := Turn(row, i, exits);
      if exits(i) then Drain(next, exits) else next.(status := Failed)
  }

  ghost predicate AllSucceed(row: Workflow, exits: nat -> bool) {
    forall i | 0 <= i < |row.stages| && row.stages[i].status == StageQueued :: exits(i)
  }

  ghost predicate StartedIn(events: seq<Event>, from: nat, i: nat) {
    exists a :: from <= a < |events| && events[a] == TurnStarted(i)
  }

  /**
    Left alone, the loop ends `completed` exactly when every queued stage succeeds. It then has run
    each of them and nothing else; otherwise it has run them up to the first failure and left the rest queued.
  */
  lemma {:induction false} DrainOutcome(row: Workflow, exits: nat -> bool)
    ensures Drain(row, exits).status == Completed <==> AllSucceed(row, exits)
    ensures Drain(row, exits).status in {Completed, Failed}
    ensures |Drain(row, exits).stages| == |row.stages|
    ensures forall i | 0 <= i < |row.stages| ::
              var reached := forall j | 0 <= j < i && row.stages[j].status == StageQueued :: exits(j);
              Drain(row, exits).stages[i].status ==
                if row.stages[i].status != StageQueued || !reached then row.stages[i].status
                else if exits(i) then StageCompleted else StageFailed
    decreases |row.stages| - NextQueued(row.stages)
  {
    var i := NextQueued(row.stages);
    if i < |row.stages| {
      TurnMovesOn(row, exits);
      var next := Turn(row, i, exits);
      assert forall j | 0 <= j < |row.stages| && j != i :: next.stages[j] == row.stages[j];
      if exits(i) {
        DrainOutcome(next, exits);
        assert AllSucceed(row, exits) <==> AllSucceed(next, exits);
      }
    }
  }

  /** In a run of the loop every stage that was queued and reached starts once, in order; no other stage starts. */
  lemma {:induction false} DrainKeeps(row: Workflow, exits: nat -> bool)
    requires RowOk(row)
    ensures RowOk(Drain(row, exits)) && row.events <= Drain(row, exits).events
    ensures forall i | 0 <= i < |row.stages| ::
              StartedIn(Drain(row, exits).events, |row.events|, i) <==>
              row.stages[i].status == StageQueued && forall j | 0 <= j < i && row.stages[j].status == StageQueued :: exits(j)
    decreases |row.stages| - NextQueued(row.stages)
  {
    var i := NextQueued(row.stages);
    if i == |row.stages| {
      StaysBehindQueue(row, row.(status := Completed));
    } else {
      TurnMovesOn(row, exits);
      TurnKeeps(row, exits);
      hide RowOk;
      var next := Turn(row, i, exits);
      assert next.events[|row.events|] == TurnStarted(i);
      if exits(i) {
        DrainKeeps(next, exits);
        DrainStarts(row, i, exits);
      }
    }
  }

  lemma TurnKeeps(row: Workflow, exits: nat -> bool)
    requires RowOk(row) && NextQueued(row.stages) < |row.stages|
    ensures var next := Turn(row, NextQueued(row.stages), exits);
            RowOk(next) && RowOk(next.(status := Failed))
  {
    var i := NextQueued(row.stages);
    assert row.stages[i].position == i;
    FirstQueuedMayStart(row, i);
    StartStageKeeps(row, i);
    FinishStageKeeps(StartStage(row, i), i, if exits(i) then StageCompleted else StageFailed);
    var next := Turn(row, i, exits);
    StaysBehindQueue(next, next.(status := Failed));
  }

  /** How the starts of the first turn and of the rest add up. */
  lemma DrainStarts(row: Workflow, i: nat, exits: nat -> bool)
    requires i == NextQueued(row.stages) && i < |row.stages| && exits(i)
    requires var next := Turn(row, i, exits);
             && next.events <= Drain(next, exits).events
             && forall k | 0 <= k < |row.stages| ::
                  StartedIn(Drain(next, exits).events, |next.events|, k) <==>
                  next.stages[k].status == StageQueued && forall j | 0 <= j < k && next.stages[j].status == StageQueued :: exits(j)
    ensures forall k | 0 <= k < |row.stages| ::
              StartedIn(Drain(Turn(row, i, exits), exits).events, |row.events|, k) <==>
              row.stages[k].status == StageQueued && forall j | 0 <= j < k && row.stages[j].status == StageQueued :: exits(j)
  {
    var next := Turn(row, i, exits);
    var events := Drain(next, exits).events;
    assert next.events == row.events + [TurnStarted(i), TurnEnded(i, StageCompleted)];
    assert events[|row.events|] == TurnStarted(i) && events[|row.events| + 1] == TurnEnded(i, StageCompleted);
    assert forall j | 0 <= j < |row.stages| && j != i :: next.stages[j] == row.stages[j];
    forall k | 0 <= k < |row.stages|
      ensures StartedIn(events, |row.events|, k) <==> k == i || StartedIn(events, |next.events|, k)
    {
      if StartedIn(events, |row.events|, k) && k != i {
        var a :| |row.events| <= a < |events| && events[a] == TurnStarted(k);
        assert |next.events| <= a;
      }
    }
  }
}
