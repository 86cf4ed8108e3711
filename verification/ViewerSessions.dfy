/** Who is attached to a session's viewer window, whether it is wanted, and what callers are told, over whole runs. */
module ViewerSessions {
  import opened Viewer

  function Attached(s: State): set<Conn> {
    OrNew(s.entry).clients
  }

  predicate Desired(s: State) {
    OrNew(s.entry).desired
  }

  /** A launch is still waiting for its viewer. */
  predicate Awaited(s: State) {
    OrNew(s.entry).opening
  }

  /** The clock has run out on a launch whose viewer never came. */
  predicate TimedOut(s: State, late: bool) {
    Desired(s) && Attached(s) == {} && Awaited(s) && late
  }

  /** The step registers viewer `c` and is told that it may stay. */
  predicate Admits(s: State, a: Action, c: Conn) {
    a.Registers? && a.c == c && RegisterSection(s.entry, a.late, c).1
  }

  // ---- what callers are told -------------------------------------------------------------------

  /** A viewer is admitted exactly if the session is desired and its launch has not timed out; then it is attached and seen. */
  lemma AdmitsIff(s: State, n: State, c: Conn, late: bool)
    requires Stepped(s, Registers(c, late), n)
    ensures Admits(s, Registers(c, late), c) <==> Desired(s) && !TimedOut(s, late)
    ensures Admits(s, Registers(c, late), c) ==> c in Attached(n) && Desired(n) && forall soon :: StatusSection(n.entry, soon).1 == IsVisible
    ensures !Admits(s, Registers(c, late), c) ==> Attached(n) == Attached(s)
  {
  }

  /** `status` says visible iff somebody is attached, and otherwise opening iff the session is desired and its launch has not timed out. */
  lemma StatusTells(s: State, late: bool)
    ensures StatusSection(s.entry, late).1 ==
            if Attached(s) != {} then IsVisible else if Desired(s) && !TimedOut(s, late) then IsOpening else IsHidden
  {
  }

  /** `show` says the same, and launches where `status` says hidden. */
  lemma ShowTells(s: State, late: bool)
    ensures ShowSection(s.entry, late).1 ==
            if Attached(s) != {} then IsVisible else if Desired(s) && !TimedOut(s, late) then IsOpening else DoLaunch
  {
  }

  // ---- one step --------------------------------------------------------------------------------

  /** Viewers come by being admitted and go by leaving or by a hide, and in no other way. */
  lemma StepAttached(s: State, a: Action, n: State, c: Conn)
    requires Stepped(s, a, n)
    ensures c in Attached(n) <==> Admits(s, a, c) || (c in Attached(s) && a != Unregisters(c) && a != HideBegins)
  {
  }

  /** The step ends the wish to see the session. */
  predicate Dismisses(s: State, a: Action) {
    match a
    case HideBegins => true
    case LaunchFails(_) => true
    case Registers(_, late) => TimedOut(s, late)
    case StatusReads(late) => TimedOut(s, late)
    case Unregisters(c) => Attached(s) == {c}
    case _ => false
  }

  /** A session becomes desired by a show that launches, and stops being desired by one of those steps. */
  lemma StepDesired(s: State, a: Action, n: State)
    requires Stepped(s, a, n)
    ensures Desired(n) <==> Launches(s, a) || (Desired(s) && !Dismisses(s, a))
  {
  }

  /** A launch is awaited from then on until a viewer is admitted or the wish ends. */
  lemma StepAwaited(s: State, a: Action, n: State)
    requires Stepped(s, a, n)
    ensures Awaited(n) <==> Launches(s, a) || (Awaited(s) && !(exists c :: Admits(s, a, c)) && !Removed(s, a))
  {
    if a.Registers? && Admits(s, a, a.c) {
      assert Awaited(n) == false;
    }
    assert forall c :: Admits(s, a, c) ==> a.Registers? && a.c == c;
  }

  /** The step clears the time limit, or the whole entry. */
  predicate Removed(s: State, a: Action) {
    Dismisses(s, a) || (a.StatusReads? && Attached(s) == {} && !Desired(s))
  }

  /** After its launch, a show closes the window again iff the session is no longer desired. */
  lemma ShowClosesIff(s: State, n: State, t: Thread)
    requires Stepped(s, ShowChecks(t), n)
    ensures t in n.shows <==> !Desired(s)
    ensures t in n.shows ==> n.shows[t] == Closing
    ensures n.recorded == s.recorded && n.orphans == s.orphans
  {
  }

  // ---- whole runs ------------------------------------------------------------------------------

  /** Viewer `c` was admitted at some step and has neither left nor been hidden since. */
  ghost predicate Stays(states: seq<State>, actions: seq<Action>, j: nat, c: Conn)
    requires j <= |actions| < |states|
  {
    exists i :: 0 <= i < j && Admits(states[i], actions[i], c) && forall k | i < k < j :: actions[k] != Unregisters(c) && actions[k] != HideBegins
  }

  /** In every run from an idle session a viewer is attached iff it was admitted and has not gone since. */
  lemma {:induction false} AttachedIff(states: seq<State>, actions: seq<Action>, j: nat, c: Conn)
    requires IsRun(states, actions) && states[0] == IDLE && j < |states|
    ensures c in Attached(states[j]) <==> Stays(states, actions, j, c)
  {
    hide Stepped, Attached, Admits;
    if j == 0 {
      NobodyAtFirst();
    } else {
      AttachedIff(states, actions, j - 1, c);
      StepAttached(states[j - 1], actions[j - 1], states[j], c);
      StaysStep(states, actions, j, c);
    }
  }

  lemma NobodyAtFirst()
    ensures Attached(IDLE) == {} && !Desired(IDLE)
  {
  }

  lemma StaysStep(states: seq<State>, actions: seq<Action>, j: nat, c: Conn)
    requires 0 < j <= |actions| < |states|
    ensures Stays(states, actions, j, c) <==>
            || Admits(states[j - 1], actions[j - 1], c)
            || (Stays(states, actions, j - 1, c) && actions[j - 1] != Unregisters(c) && actions[j - 1] != HideBegins)
  {
    hide Admits;
    if Stays(states, actions, j - 1, c) && actions[j - 1] != Unregisters(c) && actions[j - 1] != HideBegins {
      var i :| 0 <= i < j - 1 && Admits(states[i], actions[i], c) && forall k | i < k < j - 1 :: actions[k] != Unregisters(c) && actions[k] != HideBegins;
      assert forall k | i < k < j :: actions[k] != Unregisters(c) && actions[k] != HideBegins;
    }
    if Stays(states, actions, j, c) && !Admits(states[j - 1], actions[j - 1], c) {
      var i :| 0 <= i < j && Admits(states[i], actions[i], c) && forall k | i < k < j :: actions[k] != Unregisters(c) && actions[k] != HideBegins;
      assert i != j - 1;
    }
  }

  /** A launching show happened and nothing has ended the wish since. */
  ghost predicate StillWished(states: seq<State>, actions: seq<Action>, j: nat)
    requires j <= |actions| < |states|
  {
    exists i :: 0 <= i < j && Launches(states[i], actions[i]) && forall k | i < k < j :: !Dismisses(states[k], actions[k])
  }

  lemma {:induction false} DesiredIff(states: seq<State>, actions: seq<Action>, j: nat)
    requires IsRun(states, actions) && states[0] == IDLE && j < |states|
    ensures Desired(states[j]) <==> StillWished(states, actions, j)
  {
    hide Stepped, Desired, Launches, Dismisses;
    if j == 0 {
      NobodyAtFirst();
    } else {
      DesiredIff(states, actions, j - 1);
      StepDesired(states[j - 1], actions[j - 1], states[j]);
      WishedStep(states, actions, j);
    }
  }

  lemma WishedStep(states: seq<State>, actions: seq<Action>, j: nat)
    requires 0 < j <= |actions| < |states|
    ensures StillWished(states, actions, j) <==>
            || Launches(states[j - 1], actions[j - 1])
            || (StillWished(states, actions, j - 1) && !Dismisses(states[j - 1], actions[j - 1]))
  {
    hide Launches, Dismisses;
    if StillWished(states, actions, j - 1) && !Dismisses(states[j - 1], actions[j - 1]) {
      var i :| 0 <= i < j - 1 && Launches(states[i], actions[i]) && forall k | i < k < j - 1 :: !Dismisses(states[k], actions[k]);
      assert forall k | i < k < j :: !Dismisses(states[k], actions[k]);
    }
    if StillWished(states, actions, j) && !Launches(states[j - 1], actions[j - 1]) {
      var i :| 0 <= i < j && Launches(states[i], actions[i]) && forall k | i < k < j :: !Dismisses(states[k], actions[k]);
      assert i != j - 1;
    }
  }

  /**
    What a caller is told in any state of any run: visible iff some admitted viewer has neither left
    nor been hidden since; opening iff none has stayed, a show has launched with nothing ending the wish
    since, and the clock has not run out on it.
  */
  lemma StatusIff(states: seq<State>, actions: seq<Action>, j: nat, late: bool)
    requires IsRun(states, actions) && states[0] == IDLE && j < |states|
    ensures StatusSection(states[j].entry, late).1 == IsVisible <==> exists c :: Stays(states, actions, j, c)
    ensures StatusSection(states[j].entry, late).1 == IsOpening <==>
            (forall c :: !Stays(states, actions, j, c)) && StillWished(states, actions, j) && !TimedOut(states[j], late)
    ensures ShowSection(states[j].entry, late).1 == DoLaunch <==> StatusSection(states[j].entry, late).1 == IsHidden
  {
    assert |states| == |actions| + 1;
    hide Stays, StillWished, IsRun, TimedOut, Attached, Desired, StatusSection, ShowSection;
    StatusTells(states[j], late);
    ShowTells(states[j], late);
    DesiredIff(states, actions, j);
    forall c ensures c in Attached(states[j]) <==> Stays(states, actions, j, c) {
      AttachedIff(states, actions, j, c);
    }
  }
}
