/**
  Native viewer windows (server/viewer.go), one session at a time: the lock sections of `show`,
  `hide`, `register`, `unregister` and `status`, interleaved with launches and closes that run
  outside the lock.
*/
module Viewer {
  import opened Wrappers

  type Conn = nat

  /** `opening` says that `openingBy` is set. */
  datatype Entry = Entry(desired: bool, opening: bool, clients: set<Conn>)

  const NEW_ENTRY := Entry(false, false, {})

  datatype Answer = IsVisible | IsOpening | IsHidden | Unsupported | DoLaunch

  // ---- lock sections ---------------------------------------------------------------------------

  /** `late` is what the clock says about `openingBy`. An expiry closes the window with the lock held. */
  predicate Expires(e: Option<Entry>, late: bool) {
    e.Some? && e.value.desired && e.value.clients == {} && e.value.opening && late
  }

  function OrNew(e: Option<Entry>): Entry {
    if e.Some? then e.value else NEW_ENTRY
  }

  function ShowSection(e: Option<Entry>, late: bool): (Entry, Answer) {
    var entry := if Expires(e, late) then NEW_ENTRY else OrNew(e);
    if entry.clients != {} then (entry, IsVisible)
    else if entry.desired then (entry, IsOpening)
    else (entry.(desired := true, opening := true), DoLaunch)
  }

  function FailSection(e: Option<Entry>): Option<Entry> {
    var entry := OrNew(e).(desired := false, opening := false);
    if entry.clients == {} then None else Some(entry)
  }

  function RegisterSection(e: Option<Entry>, late: bool, c: Conn): (Option<Entry>, bool) {
    if Expires(e, late) then (None, false)
    else if !OrNew(e).desired then (Some(OrNew(e)), false)
    else (Some(OrNew(e).(opening := false, clients := OrNew(e).clients + {c})), true)
  }

  /** The second part says whether the window is to be closed after the section. */
  function UnregisterSection(e: Option<Entry>, c: Conn): (Option<Entry>, bool) {
    if e.None? || c !in e.value.clients then (e, false)
    else if e.value.clients == {c} then (None, true)
    else (Some(e.value.(clients := e.value.clients - {c})), false)
  }

  function StatusSection(e: Option<Entry>, late: bool): (Option<Entry>, Answer) {
    if e.None? || Expires(e, late) then (None, IsHidden)
    else if e.value.clients != {} then (e, IsVisible)
    else if e.value.desired then (e, IsOpening)
    else (None, IsHidden)
  }

  /** The state is still wanted, or a viewer is attached. */
  predicate Wanted(e: Option<Entry>) {
    e.Some? && (e.value.desired || e.value.clients != {})
  }

  // ---- interleavings ---------------------------------------------------------------------------

  type Thread = nat

  /** A `show` call that has decided to launch. */
  datatype ShowPc = Launching | Launched | Closing

  /**
    `recorded` says that the platform's single recorded window for the session is open; a launch that
    finds one recorded overwrites it, and the old window can no longer be closed (`orphans`).
    `closes` counts closes that `hide` and `unregister` still owe.
  */
  datatype State = State(entry: Option<Entry>, recorded: bool, orphans: nat, shows: map<Thread, ShowPc>, closes: nat, launches: nat)

  datatype Action =
    | ShowBegins(t: Thread, late: bool)
    | LaunchFails(t: Thread)
    | LaunchRecords(t: Thread)
    | ShowChecks(t: Thread)
    | ShowCloses(t: Thread)
    | HideBegins
    | PendingCloses
    | Registers(c: Conn, late: bool)
    | Unregisters(c: Conn)
    | StatusReads(late: bool)

  const IDLE := State(None, false, 0, map[], 0, 0)

  predicate At(s: State, t: Thread, pc: ShowPc) {
    t in s.shows && s.shows[t] == pc
  }

  predicate Enabled(s: State, a: Action) {
    match a
    case ShowBegins(t, _) => t !in s.shows
    case LaunchFails(t) => At(s, t, Launching)
    case LaunchRecords(t) => At(s, t, Launching)
    case ShowChecks(t) => At(s, t, Launched)
    case ShowCloses(t) => At(s, t, Closing)
    case PendingCloses => s.closes > 0
    case _ => true
  }

  /** The window that an expiry closes inside the section. */
  function Expired(s: State, late: bool): State {
    if Expires(s.entry, late) then s.(recorded := false) else s
  }

  function Apply(s: State, a: Action): State
    requires Enabled(s, a)
  {
    match a
    case ShowBegins(t, late) =>
      var (entry, answer) := ShowSection(s.entry, late);
      var begun := Expired(s, late).(entry := Some(entry));
      if answer == DoLaunch then begun.(shows := s.shows[t := Launching], launches := s.launches + 1) else begun
    case LaunchFails(t) => s.(entry := FailSection(s.entry), shows := s.shows - {t})
    case LaunchRecords(t) =>
      s.(recorded := true, orphans := if s.recorded then s.orphans + 1 else s.orphans, shows := s.shows[t := Launched])
    case ShowChecks(t) =>
      s.(entry := Some(OrNew(s.entry)), shows := if OrNew(s.entry).desired then s.shows - {t} else s.shows[t := Closing])
    case ShowCloses(t) => s.(recorded := false, shows := s.shows - {t})
    case HideBegins => s.(entry := None, closes := s.closes + 1)
    case PendingCloses => s.(recorded := false, closes := s.closes - 1)
    case Registers(c, late) => Expired(s, late).(entry := RegisterSection(s.entry, late, c).0)
    case Unregisters(c) =>
      var (entry, shouldClose) := UnregisterSection(s.entry, c);
      s.(entry := entry, closes := if shouldClose then s.closes + 1 else s.closes)
    case StatusReads(late) => Expired(s, late).(entry := StatusSection(s.entry, late).0)
  }

  predicate Stepped(s: State, a: Action, n: State) {
    Enabled(s, a) && n == Apply(s, a)
  }

  /** The step is a `show` that goes on to launch. */
  predicate Launches(s: State, a: Action) {
    a.ShowBegins? && ShowSection(s.entry, a.late).1 == DoLaunch
  }

  /** No window is left recorded when the section has run, and no other launch is under way. */
  predicate Clear(s: State, a: Action)
    requires a.ShowBegins?
  {
    !Expired(s, a.late).recorded && forall t | t in s.shows :: s.shows[t] != Launching
  }

  ghost predicate IsRun(states: seq<State>, actions: seq<Action>) {
    && |states| == |actions| + 1
    && forall k | 0 <= k < |actions| :: Stepped(states[k], actions[k], states[k + 1])
  }

  /** Every `show` that launches begins in a clear state. */
  ghost predicate Disciplined(states: seq<State>, actions: seq<Action>) {
    && IsRun(states, actions)
    && forall k | 0 <= k < |actions| && Launches(states[k], actions[k]) :: Clear(states[k], actions[k])
  }

  // ---- invariant -------------------------------------------------------------------------------

  /** Nobody owes a close. */
  predicate NoCloseDue(s: State) {
    s.closes == 0 && forall t | t in s.shows :: s.shows[t] == Launching
  }

  predicate Quiet(s: State) {
    s.closes == 0 && s.shows == map[]
  }

  ghost predicate Inv(s: State) {
    && s.orphans == 0
    && (forall t | t in s.shows && s.shows[t] == Launching :: !s.recorded)
    && (forall t, u | t in s.shows && u in s.shows && s.shows[t] == s.shows[u] == Launching :: t == u)
    && (s.recorded && NoCloseDue(s) ==> Wanted(s.entry))
  }

  lemma StepKeeps(s: State, a: Action, n: State)
    requires Inv(s) && Stepped(s, a, n) && (Launches(s, a) ==> Clear(s, a))
    ensures Inv(n)
  {
    match a {
      case LaunchRecords(t) => assert n.shows[t] == Launched;
      case ShowChecks(t) => assert OrNew(s.entry).desired || n.shows[t] == Closing;
      case ShowCloses(t) =>
      case PendingCloses =>
      case LaunchFails(t) => assert forall u | u in s.shows :: u == t || (u in n.shows && n.shows[u] == s.shows[u]);
      case _ => assert forall u | u in s.shows :: u in n.shows && n.shows[u] == s.shows[u];
    }
  }

  lemma {:induction false} AlwaysInv(states: seq<State>, actions: seq<Action>, i: nat)
    requires Disciplined(states, actions) && Inv(states[0]) && i < |states|
    ensures Inv(states[i])
  {
    if i > 0 {
      AlwaysInv(states, actions, i - 1);
      hide Inv;
      StepKeeps(states[i - 1], actions[i - 1], states[i]);
    }
  }

  /**
    However a run interleaves, as long as every launching `show` begins with no window recorded and no
    other launch under way: no window is ever lost, and whenever no show or close is pending, a native
    window is open only if the session is still wanted or has a viewer.
  */
  lemma WindowsAreWanted(states: seq<State>, actions: seq<Action>, i: nat)
    requires Disciplined(states, actions) && Inv(states[0]) && i < |states|
    ensures states[i].orphans == 0
    ensures Quiet(states[i]) && states[i].recorded ==> Wanted(states[i].entry)
  {
    AlwaysInv(states, actions, i);
  }

  /** A session nobody has asked to see meets the assumptions about the first state. */
  lemma IdleIsSettled()
    ensures Inv(IDLE) && Settled(IDLE)
  {
  }

  /** The state of a session with nothing pending. */
  predicate Settled(s: State) {
    Quiet(s) && s.orphans == 0 && (s.recorded ==> Wanted(s.entry))
  }

  /** Starting settled, a launching `show` that begins alone, with no close pending, is clear. */
  lemma SoleShowIsClear(s: State, a: Action)
    requires Inv(s) && NoCloseDue(s) && Launches(s, a) && forall t | t in s.shows :: s.shows[t] != Launching
    ensures Clear(s, a)
  {
  }

  /**
    One `show`, started when no show or close is pending, then interleaved with any number of hides,
    registrations, unregistrations, expiries and reads: at every later moment with nothing pending, a
    window is open only if still wanted.
  */
  lemma OneShow(states: seq<State>, actions: seq<Action>, i: nat)
    requires IsRun(states, actions) && Settled(states[0]) && i < |states|
    requires forall k | 0 < k < |actions| :: !Launches(states[k], actions[k])
    ensures states[i].orphans == 0
    ensures Quiet(states[i]) && states[i].recorded ==> Wanted(states[i].entry)
  {
    forall k | 0 <= k < |actions| && Launches(states[k], actions[k]) ensures Clear(states[k], actions[k]) {
      SoleShowIsClear(states[0], actions[0]);
    }
    WindowsAreWanted(states, actions, i);
  }

  // ---- the condition is exact ------------------------------------------------------------------

  /** A lost window stays lost: no later step of any run can close it. */
  lemma {:induction false} OrphansStay(states: seq<State>, actions: seq<Action>, i: nat, j: nat)
    requires IsRun(states, actions) && i <= j < |states|
    ensures states[i].orphans <= states[j].orphans
    decreases j
  {
    if i < j {
      OrphansStay(states, actions, i, j - 1);
      assert Stepped(states[j - 1], actions[j - 1], states[j]);
    }
  }

  /**
    Conversely, from any state in which a launching `show` begins unclear there is a run that loses a
    window, because the second launch overwrites the only record of the first.
  */
  lemma UnclearShowCanOrphan(s: State, a: Action) returns (states: seq<State>, actions: seq<Action>)
    requires Enabled(s, a) && Launches(s, a) && !Clear(s, a)
    ensures IsRun(states, actions) && actions != [] && states[0] == s && actions[0] == a
    ensures states[|actions|].orphans > s.orphans
  {
    var begun := Apply(s, a);
    if begun.recorded {
      states, actions := [s, begun, Apply(begun, LaunchRecords(a.t))], [a, LaunchRecords(a.t)];
    } else {
      var t :| t in s.shows && s.shows[t] == Launching;
      assert At(begun, t, Launching);
      var first := Apply(begun, LaunchRecords(t));
      states, actions := [s, begun, first, Apply(first, LaunchRecords(a.t))], [a, LaunchRecords(t), LaunchRecords(a.t)];
    }
  }

  /**
    Such a state is within reach of a session that starts idle: show, hide while the launch is under
    way, show again. Both launches open a window, and the first can no longer be closed.
  */
  lemma HiddenLaunchOrphans() returns (states: seq<State>, actions: seq<Action>)
    ensures IsRun(states, actions) && states[0] == IDLE
    ensures actions == [ShowBegins(0, false), HideBegins, ShowBegins(1, false), LaunchRecords(0), LaunchRecords(1)]
    ensures Launches(states[2], actions[2]) && !Clear(states[2], actions[2])
    ensures states[5].orphans == 1 && states[5].recorded
  {
    actions := [ShowBegins(0, false), HideBegins, ShowBegins(1, false), LaunchRecords(0), LaunchRecords(1)];
    var s1 := Apply(IDLE, actions[0]);
    var s2 := Apply(s1, actions[1]);
    var s3 := Apply(s2, actions[2]);
    var s4 := Apply(s3, actions[3]);
    states := [IDLE, s1, s2, s3, s4, Apply(s4, actions[4])];
  }

  // ---- hide wins, launch once ------------------------------------------------------------------

  lemma {:induction false} StaysUnwanted(states: seq<State>, actions: seq<Action>, i: nat, j: nat)
    requires IsRun(states, actions) && i <= j < |states| && !Wanted(states[i].entry)
    requires forall k | i <= k < j :: !Launches(states[k], actions[k])
    ensures !Wanted(states[j].entry)
    decreases j
  {
    if i < j {
      StaysUnwanted(states, actions, i, j - 1);
      assert Stepped(states[j - 1], actions[j - 1], states[j]);
    }
  }

  /** A hide wins over every show that began before it, also one whose launch was still under way. */
  lemma HideWins(states: seq<State>, actions: seq<Action>, i: nat, j: nat)
    requires Disciplined(states, actions) && Inv(states[0]) && i < j < |states| && actions[i] == HideBegins
    requires forall k | i < k < j :: !Launches(states[k], actions[k])
    requires Quiet(states[j])
    ensures !states[j].recorded && !Wanted(states[j].entry)
  {
    AlwaysInv(states, actions, j);
    assert Stepped(states[i], actions[i], states[i + 1]);
    StaysUnwanted(states, actions, i + 1, j);
  }

  /** Steps that may make a launched window unwanted. */
  predicate Withdraws(s: State, a: Action) {
    match a
    case ShowBegins(_, late) => Expires(s.entry, late)
    case Registers(_, late) => Expires(s.entry, late)
    case StatusReads(late) => Expires(s.entry, late)
    case HideBegins => true
    case Unregisters(c) => UnregisterSection(s.entry, c).1
    case LaunchFails(_) => true
    case _ => false
  }

  lemma StepLaunches(s: State, a: Action, n: State)
    requires Stepped(s, a, n) && !Withdraws(s, a)
    ensures n.launches - s.launches == if a.ShowBegins? && !Wanted(s.entry) then 1 else 0
    ensures Wanted(n.entry) <==> Wanted(s.entry) || a.ShowBegins?
  {
  }

  ghost predicate SomeShow(actions: seq<Action>, i: nat, j: nat)
    requires i <= j <= |actions|
  {
    exists k :: i <= k < j && actions[k].ShowBegins?
  }

  /**
    Repeated shows launch exactly once: over a stretch of a run with no hide, last viewer leaving,
    expiry or failed launch, the number of launches is one if some show began while nothing was
    wanted, and none otherwise.
  */
  lemma {:induction false} LaunchOnce(states: seq<State>, actions: seq<Action>, i: nat, j: nat)
    requires IsRun(states, actions) && i <= j < |states|
    requires forall k | i <= k < j :: !Withdraws(states[k], actions[k])
    ensures states[j].launches - states[i].launches == if !Wanted(states[i].entry) && SomeShow(actions, i, j) then 1 else 0
    ensures Wanted(states[j].entry) <==> Wanted(states[i].entry) || SomeShow(actions, i, j)
    decreases j
  {
    hide Stepped, Withdraws, Wanted;
    if i < j {
      LaunchOnce(states, actions, i, j - 1);
      StepLaunches(states[j - 1], actions[j - 1], states[j]);
      assert SomeShow(actions, i, j) <==> actions[j - 1].ShowBegins? || SomeShow(actions, i, j - 1);
    }
  }

  // ---- the controller --------------------------------------------------------------------------

  /** The lock sections over the map of all sessions; each touches the entry of one. */
  class ViewerController {
    /** Whether the platform has a launcher. */
    const supported: bool
    var states: map<string, Entry>

    function Lookup(id: string): Option<Entry>
      reads this
    {
      if id in states then Some(states[id]) else None
    }

    twostate predicate OnlyEntry(id: string)
      reads this
    {
      forall other: string | other != id :: Lookup(other) == old(Lookup(other))
    }

    constructor (launcher: bool)
      ensures supported == launcher && states == map[]
    {
      supported, states := launcher, map[];
    }

    /** `state`: creates the entry on demand. */
    method EnsureEntry(id: string) returns (entry: Entry)
      modifies this
      ensures Lookup(id) == Some(entry) && entry == OrNew(old(Lookup(id))) && OnlyEntry(id)
    {
      if id !in states {
        states := states[id := NEW_ENTRY];
      }
      entry := states[id];
    }

    /** `expireOpening`; `closes` tells the caller that the window was closed under the lock. */
    method ExpireOpening(id: string, late: bool) returns (closes: bool)
      modifies this
      ensures closes == Expires(old(Lookup(id)), late)
      ensures Lookup(id) == (if closes then None else old(Lookup(id))) && OnlyEntry(id)
    {
      closes := false;
      if id in states {
        var entry := states[id];
        if entry.desired && entry.clients == {} && entry.opening && late {
          states := states - {id};
          closes := true;
        }
      }
    }

    /** The platform can show windows, somebody asked for this one, and its launch has not timed out. */
    predicate Wants(id: string, late: bool)
      reads this
    {
      supported && id in states && states[id].desired && !(states[id].clients == {} && states[id].opening && late)
    }

    predicate HasViewers(id: string)
      reads this
    {
      id in states && states[id].clients != {}
    }

    method ShowBegin(id: string, late: bool) returns (answer: Answer, closes: bool)
      modifies this
      ensures answer == if !supported then Unsupported
                        else if old(HasViewers(id)) then IsVisible else if old(Wants(id, late)) then IsOpening else DoLaunch
      ensures answer == DoLaunch ==> Lookup(id) == Some(Entry(true, true, {}))
      ensures !supported ==> answer == Unsupported && !closes && states == old(states)
      ensures supported ==> Lookup(id).Some? && (Lookup(id).value, answer) == ShowSection(old(Lookup(id)), late)
                            && closes == Expires(old(Lookup(id)), late)
      ensures OnlyEntry(id)
    {
      if !supported {
        return Unsupported, false;
      }
      var entry := EnsureEntry(id);
      closes := ExpireOpening(id, late);
      if closes {
        entry := EnsureEntry(id);
      }
      if entry.clients != {} {
        return IsVisible, closes;
      }
      if entry.desired {
        return IsOpening, closes;
      }
      states := states[id := entry.(desired := true, opening := true)];
      answer := DoLaunch;
    }

    method LaunchFailed(id: string)
      modifies this
      ensures Lookup(id) == FailSection(old(Lookup(id))) && OnlyEntry(id)
    {
      var entry := EnsureEntry(id);
      entry := entry.(desired := false, opening := false);
      states := states[id := entry];
      if entry.clients == {} {
        states := states - {id};
      }
    }

    method StillDesired(id: string) returns (desired: bool)
      modifies this
      ensures desired == OrNew(old(Lookup(id))).desired && Lookup(id) == Some(OrNew(old(Lookup(id)))) && OnlyEntry(id)
    {
      var entry := EnsureEntry(id);
      desired := entry.desired;
    }

    method HideBegin(id: string) returns (clients: set<Conn>)
      modifies this
      ensures Lookup(id) == None && clients == OrNew(old(Lookup(id))).clients && OnlyEntry(id)
    {
      clients := {};
      if id in states {
        clients := states[id].clients;
        states := states - {id};
      }
    }

    method Register(id: string, late: bool, connection: Conn) returns (ok: bool, closes: bool)
      modifies this
      ensures ok <==> old(Wants(id, late))
      ensures ok ==> id in states && states[id] == Entry(true, false, old(states)[id].clients + {connection})
      ensures !supported ==> !ok && !closes && states == old(states)
      ensures supported ==> (Lookup(id), ok) == RegisterSection(old(Lookup(id)), late, connection)
                            && closes == Expires(old(Lookup(id)), late)
      ensures OnlyEntry(id)
    {
      if !supported {
        return false, false;
      }
      var entry := EnsureEntry(id);
      closes := ExpireOpening(id, late);
      if closes {
        return false, closes;
      }
      if !entry.desired {
        return false, closes;
      }
      states := states[id := entry.(opening := false, clients := entry.clients + {connection})];
      ok := true;
    }

    method Unregister(id: string, connection: Conn) returns (shouldClose: bool)
      modifies this
      ensures shouldClose <==> id in old(states) && old(states)[id].clients == {connection}
      ensures shouldClose ==> id !in states
      ensures id in old(states) && !shouldClose ==> id in states && states[id] == old(states)[id].(clients := states[id].clients)
                                                    && states[id].clients == old(states)[id].clients - {connection}
      ensures (Lookup(id), shouldClose) == UnregisterSection(old(Lookup(id)), connection) && OnlyEntry(id)
    {
      if id !in states || connection !in states[id].clients {
        return false;
      }
      var left := states[id].clients - {connection};
      if left == {} {
        assert states[id].clients == {connection};
        states := states - {id};
        return true;
      }
      states := states[id := states[id].(clients := left)];
      shouldClose := false;
    }

    method Status(id: string, late: bool) returns (answer: Answer, closes: bool)
      modifies this
      ensures answer == if !supported then Unsupported
                        else if old(HasViewers(id)) then IsVisible else if old(Wants(id, late)) then IsOpening else IsHidden
      ensures !supported ==> answer == Unsupported && !closes && states == old(states)
      ensures supported ==> (Lookup(id), answer) == StatusSection(old(Lookup(id)), late) && closes == Expires(old(Lookup(id)), late)
      ensures OnlyEntry(id)
    {
      if !supported {
        return Unsupported, false;
      }
      if id !in states {
        return IsHidden, false;
      }
      closes := ExpireOpening(id, late);
      if closes {
        return IsHidden, closes;
      }
      if states[id].clients != {} {
        return IsVisible, closes;
      }
      if states[id].desired {
        return IsOpening, closes;
      }
      states := states - {id};
      answer := IsHidden;
    }
  }
}
