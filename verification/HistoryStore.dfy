/** The saved-terminal store as an object: every transaction as a sequence of statements of HistoryRows. */
module HistoryStore {
  import opened Collections
  import opened HistoryReplay
  import opened HistoryRows
  import opened Text
  import opened Wrappers

  const MAX_NAME_RUNES := 80
  const MAX_CWD_BYTES := 4096

  datatype Error = NotFound | FavoriteLimit | NotEnded | BadMetadata | Constraint

  datatype Outcome = Done | Failed(error: Error)

  function WithoutNul(s: string): string {
    if s == "" then "" else if s[0] == '\0' then WithoutNul(s[1..]) else [s[0]] + WithoutNul(s[1..])
  }

  /** `safeMetadata` */
  function SafeName(name: string): string {
    var trimmed := TrimSpace(WithoutNul(name));
    var named := if trimmed == "" then "Terminal" else trimmed;
    if |named| > MAX_NAME_RUNES then named[..MAX_NAME_RUNES] else named
  }

  predicate SafeCwd(cwd: string) {
    cwd != "" && Utf8Length(cwd) <= MAX_CWD_BYTES && '\0' !in cwd
  }

  function Safe(info: Info): Info {
    info.(name := SafeName(info.name))
  }

  predicate HasEnded(info: Info) {
    !info.running && info.ended.Some?
  }

  /** The sessions whose end a pass records, in order. */
  function EndedInfos(sessions: seq<Info>): seq<Info> {
    if sessions == [] then []
    else
      var before, last := EndedInfos(sessions[..|sessions| - 1]), sessions[|sessions| - 1];
      if HasEnded(last) then before + [last] else before
  }

  ghost function KnownIds(sessions: seq<Info>): set<SessionId> {
    set k | 0 <= k < |sessions| :: sessions[k].id
  }

  /** `rows` after `events`, all of which ran. */
  ghost predicate Ran(rows: Rows, events: seq<Event>, next: Rows) {
    AllEnabled(rows, events) && next == Run(rows, events)
  }

  lemma RanPush(rows: Rows, events: seq<Event>, next: Rows, e: Event)
    requires Ran(rows, events, next) && Enabled(next, e)
    ensures Ran(rows, events + [e], Apply(next, e))
  {
    RunPush(rows, events, e);
  }

  lemma {:induction false} RunKeepsBounds(rows: Rows, events: seq<Event>)
    requires Unique(rows) && |Favorites(rows)| <= MAX_FAVORITES
    ensures Unique(Run(rows, events)) && |Favorites(Run(rows, events))| <= MAX_FAVORITES
  {
    hide Unique, Enabled, Apply, Favorites;
    if events != [] {
      var before, e := Run(rows, events[..|events| - 1]), events[|events| - 1];
      RunKeepsBounds(rows, events[..|events| - 1]);
      if Enabled(before, e) {
        EventKeepsUnique(before, e);
        EventKeepsFavorites(before, e);
      }
    }
  }

  class Store {
    var rows: Rows

    ghost predicate Valid()
      reads this
    {
      Bounded(rows)
    }

    constructor ()
      ensures Valid() && rows == map[]
    {
      rows := map[];
    }

    /** `pruneRecent` inside a transaction; SQLite picks among equal keys. */
    static method PruneRecent(tx: Rows) returns (next: Rows, ghost e: Event)
      ensures e.Prunes? && Enabled(tx, e) && next == Apply(tx, e)
    {
      ghost var some := RecentExists(tx, Others(tx), MAX_RECENT);
      assert IsRecent(tx, some);
      var keep :| IsRecent(tx, keep);
      next := Pruned(tx, keep);
      e := Prunes(keep);
    }

    /** `reconcileEnded`; a failing one leaves the transaction to be rolled back. */
    static method ReconcileEnded(tx: Rows, info: Info, newID: RowId) returns (outcome: Outcome, next: Rows, ghost e: Event)
      requires HasEnded(info)
      ensures outcome.Done? <==> SafeCwd(info.cwd) && (newID !in tx || exists r :: r in tx && Linked(tx[r], info.id))
      ensures outcome.Failed? ==> !SafeCwd(info.cwd) || newID in tx
      ensures outcome.Done? ==> e.Ends? && e.info == Safe(info) && e.newID == newID && Enabled(tx, e) && next == Apply(tx, e)
    {
      next, e := tx, ClearsMissing({});
      if !SafeCwd(info.cwd) {
        return Failed(BadMetadata), next, e;
      }
      outcome := Done;
      var ended := info.ended.value;
      if !exists r :: r in tx && Linked(tx[r], info.id) {
        if newID in tx {
          return Failed(Constraint), next, e;
        }
        next := tx[newID := Started(Safe(info), ended)];
        e := Ends(Safe(info), None, newID);
        return;
      }
      var id :| id in tx && Linked(tx[id], info.id);
      e := Ends(Safe(info), Some(id), newID);
      var row := tx[id];
      if row.closed.Some? && row.active != Some(info.id) {
        return;
      }
      var active := if row.active == Some(info.id) then None else row.active;
      next := tx[id := row.(active := active, closed := Some(ended), updated := ended)];
    }

    /** `clearMissingActiveSessions`: collect first, then update one by one. */
    static method ClearMissing(tx: Rows, known: set<SessionId>) returns (next: Rows)
      ensures next == Apply(tx, ClearsMissing(known))
    {
      var missing := set r | r in tx && tx[r].active.Some? && tx[r].active.value !in known;
      next := tx;
      while missing != {}
        invariant missing <= tx.Keys == next.Keys
        invariant forall r | r in tx && tx[r].active.Some? && tx[r].active.value !in known && r !in missing ::
                    next[r] == tx[r].(active := None)
        invariant forall r | r in missing || (r in tx && !(tx[r].active.Some? && tx[r].active.value !in known)) :: next[r] == tx[r]
      {
        var r :| r in missing;
        next := next[r := next[r].(active := None)];
        missing := missing - {r};
      }
    }

    /** One transaction over everything the daemon knows; one bad session rolls all of it back. */
    method Reconcile(sessions: seq<Info>, newIDs: seq<RowId>) returns (outcome: Outcome, ghost events: seq<Event>)
      requires Valid() && |newIDs| == |sessions|
      modifies this
      ensures Valid() && (outcome.Failed? ==> rows == old(rows))
      ensures outcome.Done? ==> Reconciled(old(rows), events, rows, EndedInfos(sessions), KnownIds(sessions))
      ensures outcome.Failed? ==> exists k :: 0 <= k < |sessions| && Refused(sessions[k], newIDs[k], old(rows).Keys, newIDs[..k])
    {
      hide *;
      var tx := rows;
      events := [];
      PassNothing(rows);
      assert sessions[..0] == [];
      var known: set<SessionId> := {};
      var k := 0;
      while k < |sessions|
        invariant k <= |sessions| && rows == old(rows) && Valid()
        invariant Pass(rows, events, tx, EndedInfos(sessions[..k])) && known == KnownIds(sessions[..k])
        invariant forall r | r in tx :: r in rows || r in newIDs[..k]
      {
        var info := sessions[k];
        known := known + {info.id};
        EndedInfosPush(sessions, k);
        if HasEnded(info) {
          ghost var was := tx;
          ghost var e: Event;
          outcome, tx, e := ReconcileEnded(tx, info, newIDs[k]);
          if outcome.Failed? {
            RefusedIs(info, newIDs[k], rows.Keys, newIDs[..k]);
            return;
          }
          NewRow(was, e);
          assert newIDs[..k + 1] == newIDs[..k] + [newIDs[k]];
          PassEnd(rows, events, was, EndedInfos(sessions[..k]), e, info);
          events := events + [e];
        }
        assert forall r | r in newIDs[..k] :: r in newIDs[..k + 1];
        k := k + 1;
      }
      assert sessions[..k] == sessions;
      ghost var was := tx;
      tx := ClearMissing(tx, known);
      ghost var pruned: Event;
      tx, pruned := PruneRecent(tx);
      ValidIs(rows);
      Commit(rows, events, was, EndedInfos(sessions), known, pruned);
      events := events + [ClearsMissing(known), pruned];
      rows := tx;
      ValidIs(rows);
      outcome := Done;
    }

    lemma ValidIs(table: Rows)
      ensures rows == table ==> (Valid() <==> Bounded(table))
    {
    }

    method RecordEnded(info: Info, newID: RowId) returns (outcome: Outcome, ghost events: seq<Event>)
      requires Valid()
      modifies this
      ensures Valid() && (outcome.Failed? ==> rows == old(rows))
      ensures outcome.Done? ==>
                && HasEnded(info) && |events| == 2 && Ran(old(rows), events, rows)
                && events[0].Ends? && events[0].info == Safe(info) && events[1].Prunes?
      ensures outcome.Failed? ==> !HasEnded(info) || !SafeCwd(info.cwd) || newID in old(rows)
    {
      hide *;
      events := [];
      ValidIs(rows);
      if !HasEnded(info) {
        return Failed(NotEnded), events;
      }
      ghost var e: Event;
      var tx: Rows;
      outcome, tx, e := ReconcileEnded(rows, info, newID);
      if outcome.Failed? {
        return;
      }
      ghost var pruned: Event;
      tx, pruned := PruneRecent(tx);
      CommitOne(rows, e, pruned);
      events := [e, pruned];
      rows := tx;
      ValidIs(rows);
    }

    /** The insert or update of `SaveSession`. */
    static method SaveRow(tx: Rows, info: Info, favorite: bool, now: Time, newID: RowId) returns (outcome: Outcome, next: Rows, ghost e: Event)
      ensures outcome.Done? ==>
                && Enabled(tx, e) && next == Apply(tx, e)
                && e.Saves? && e.info == Safe(info) && e.favorite == favorite && e.now == now
      ensures outcome.Failed? ==> (favorite && |Favorites(tx)| >= MAX_FAVORITES) || newID in tx
    {
      hide SafeCwd, SafeName, IsRecent;
      next, e := tx, ClearsMissing({});
      outcome := Done;
      if exists r :: r in tx && Linked(tx[r], info.id) {
        var id :| id in tx && Linked(tx[id], info.id);
        if favorite && !tx[id].favorite && |Favorites(tx)| >= MAX_FAVORITES {
          return Failed(FavoriteLimit), next, e;
        }
        e := Saves(Safe(info), favorite, now, Some(id), newID);
        next := tx[id := tx[id].(favorite := favorite, updated := now)];
      } else {
        if favorite && |Favorites(tx)| >= MAX_FAVORITES {
          return Failed(FavoriteLimit), next, e;
        }
        if newID in tx {
          return Failed(Constraint), next, e;
        }
        e := Saves(Safe(info), favorite, now, None, newID);
        next := tx[newID := Row(info.id, None, SafeName(info.name), info.cwd, favorite, now, now, now, None)];
      }
    }

    method SaveSession(info: Info, favorite: bool, now: Time, newID: RowId) returns (outcome: Outcome, ghost events: seq<Event>)
      requires Valid()
      modifies this
      ensures Valid() && (outcome.Failed? ==> rows == old(rows))
      ensures outcome.Done? ==>
                && |events| == 2 && Ran(old(rows), events, rows) && events[1].Prunes?
                && events[0].Saves? && events[0].info == Safe(info) && events[0].favorite == favorite && events[0].now == now
      ensures outcome.Failed? ==> !SafeCwd(info.cwd) || (favorite && |Favorites(old(rows))| >= MAX_FAVORITES) || newID in old(rows)
    {
      events := [];
      if !SafeCwd(info.cwd) {
        return Failed(BadMetadata), events;
      }
      hide Apply, Enabled, Bounded, Ran, Safe;
      ghost var save: Event;
      var tx: Rows;
      outcome, tx, save := SaveRow(rows, info, favorite, now, newID);
      if outcome.Failed? {
        return;
      }
      ghost var pruned: Event;
      tx, pruned := PruneRecent(tx);
      CommitOne(rows, save, pruned);
      events := [save, pruned];
      rows := tx;
    }

    method Update(id: RowId, name: Option<string>, favorite: Option<bool>, now: Time) returns (outcome: Outcome, ghost events: seq<Event>)
      requires Valid()
      modifies this
      ensures Valid() && (outcome.Failed? ==> rows == old(rows))
      ensures outcome == if id !in old(rows) then Failed(NotFound)
                         else if favorite == Some(true) && !old(rows)[id].favorite && |Favorites(old(rows))| >= MAX_FAVORITES then Failed(FavoriteLimit)
                         else Done
      ensures outcome.Done? ==>
                |events| == 2 && events[0] == Updates(id, name, favorite, now) && events[1].Prunes? && Ran(old(rows), events, rows)
    {
      events := [];
      if id !in rows {
        return Failed(NotFound), events;
      }
      if favorite == Some(true) && !rows[id].favorite && |Favorites(rows)| >= MAX_FAVORITES {
        return Failed(FavoriteLimit), events;
      }
      var entry := rows[id];
      if name.Some? {
        entry := entry.(name := name.value);
      }
      if favorite.Some? {
        entry := entry.(favorite := favorite.value);
      }
      var tx := rows[id := entry.(updated := now)];
      ghost var update, was := Updates(id, name, favorite, now), tx;
      assert Enabled(rows, update) && tx == Apply(rows, update);
      hide Apply, Enabled, Bounded, Ran;
      ghost var pruned: Event;
      tx, pruned := PruneRecent(tx);
      CommitOne(rows, update, pruned);
      events := [update, pruned];
      rows := tx;
      outcome := Done;
    }

    method Delete(id: RowId) returns (outcome: Outcome)
      requires Valid()
      modifies this
      ensures Valid()
      ensures if id in old(rows) then outcome == Done && rows == Apply(old(rows), Deletes(id)) else outcome == Failed(NotFound) && rows == old(rows)
      ensures id !in rows && forall r | r in old(rows) && r != id :: r in rows && rows[r] == old(rows)[r]
    {
      if id !in rows {
        return Failed(NotFound);
      }
      FewerRows(rows, Deletes(id));
      rows := rows - {id};
      outcome := Done;
    }

    /** The unique index refuses a session that is already active elsewhere. */
    method MarkOpened(id: RowId, session: SessionId, openedAt: Time) returns (outcome: Outcome)
      requires Valid()
      modifies this
      ensures Valid()
      ensures if Enabled(old(rows), Opens(id, session, openedAt)) then outcome == Done && rows == Apply(old(rows), Opens(id, session, openedAt))
              else outcome.Failed? && rows == old(rows)
      ensures outcome.Done? ==> rows.Keys == old(rows).Keys && forall r | r in old(rows) ::
                rows[r] == if r == id then old(rows)[r].(active := Some(session), lastOpened := openedAt, updated := openedAt) else old(rows)[r]
      ensures outcome.Done? <==> id in old(rows) && forall r | r in old(rows) && old(rows)[r].active == Some(session) :: r == id
    {
      if id !in rows {
        return Failed(NotFound);
      }
      if exists r :: r in rows && r != id && rows[r].active == Some(session) {
        return Failed(Constraint);
      }
      SameRows(rows, Opens(id, session, openedAt));
      rows := rows[id := rows[id].(active := Some(session), lastOpened := openedAt, updated := openedAt)];
      outcome := Done;
    }

    method RenameSession(session: SessionId, name: string, now: Time)
      requires Valid()
      modifies this
      ensures Valid() && rows == Apply(old(rows), Renames(session, name, now))
      ensures rows.Keys == old(rows).Keys && forall r | r in old(rows) ::
                rows[r] == if Linked(old(rows)[r], session) then old(rows)[r].(name := name, updated := now) else old(rows)[r]
    {
      SameRows(rows, Renames(session, name, now));
      rows := map r | r in rows :: if Linked(rows[r], session) then rows[r].(name := name, updated := now) else rows[r];
    }

    /** What `List` sends the browser: every row, never more than its decoder accepts. */
    method List() returns (entries: set<(RowId, Row)>)
      requires Valid()
      ensures forall r, row :: (r, row) in entries <==> r in rows && rows[r] == row
      ensures |rows| <= MAX_SAVED_TERMINALS
    {
      ListingFits(rows);
      entries := set r | r in rows :: (r, rows[r]);
    }
  }

  /** Why a session's end cannot be recorded: an unusable directory, or a row id that is taken. */
  predicate Refused(info: Info, newID: RowId, used: set<RowId>, earlier: seq<RowId>) {
    HasEnded(info) && (!SafeCwd(info.cwd) || newID in used || newID in earlier)
  }

  lemma RefusedIs(info: Info, newID: RowId, used: set<RowId>, earlier: seq<RowId>)
    ensures Refused(info, newID, used, earlier) <==> HasEnded(info) && (!SafeCwd(info.cwd) || newID in used || newID in earlier)
  {
  }

  lemma NewRow(rows: Rows, e: Event)
    requires Enabled(rows, e) && e.Ends?
    ensures Apply(rows, e).Keys <= rows.Keys + {e.newID}
  {
  }

  // ---- transactions ----------------------------------------------------------------------------

  ghost predicate EndsOf(events: seq<Event>, infos: seq<Info>) {
    |events| == |infos| && forall k | 0 <= k < |events| :: events[k].Ends? && events[k].info == Safe(infos[k])
  }

  /** The loop of `Reconcile` so far. */
  ghost predicate Pass(rows: Rows, events: seq<Event>, next: Rows, infos: seq<Info>) {
    Ran(rows, events, next) && EndsOf(events, infos)
  }

  /** The ends of `infos` in order, then the clearing of unknown active sessions, then a prune. */
  ghost predicate Reconciled(rows: Rows, events: seq<Event>, next: Rows, infos: seq<Info>, known: set<SessionId>) {
    && Ran(rows, events, next) && |events| == |infos| + 2
    && EndsOf(events[..|infos|], infos) && events[|infos|] == ClearsMissing(known) && events[|infos| + 1].Prunes?
  }

  lemma PassNothing(rows: Rows)
    ensures Pass(rows, [], rows, EndedInfos([])) && KnownIds([]) == {}
  {
  }

  lemma EndedInfosPush(sessions: seq<Info>, k: nat)
    requires k < |sessions|
    ensures EndedInfos(sessions[..k + 1]) == EndedInfos(sessions[..k]) + if HasEnded(sessions[k]) then [sessions[k]] else []
    ensures !HasEnded(sessions[k]) ==> EndedInfos(sessions[..k + 1]) == EndedInfos(sessions[..k])
    ensures KnownIds(sessions[..k + 1]) == KnownIds(sessions[..k]) + {sessions[k].id}
  {
    var longer, shorter := sessions[..k + 1], sessions[..k];
    assert longer[..k] == shorter;
    forall s | s in KnownIds(shorter) ensures s in KnownIds(longer) {
      var j :| 0 <= j < k && shorter[j].id == s;
      assert longer[j].id == s;
    }
    assert longer[k].id in KnownIds(longer);
    forall s | s in KnownIds(longer) ensures s in KnownIds(shorter) + {sessions[k].id} {
      var j :| 0 <= j < k + 1 && longer[j].id == s;
      assert j < k ==> shorter[j].id == s;
    }
  }

  lemma PassEnd(rows: Rows, events: seq<Event>, next: Rows, infos: seq<Info>, e: Event, info: Info)
    requires Pass(rows, events, next, infos) && e.Ends? && e.info == Safe(info) && Enabled(next, e)
    ensures Pass(rows, events + [e], Apply(next, e), infos + [info])
  {
    hide Enabled, Apply, Ran;
    RanPush(rows, events, next, e);
  }

  /** A pass that ends with a prune leaves a bounded table. */
  lemma Commit(rows: Rows, events: seq<Event>, before: Rows, infos: seq<Info>, known: set<SessionId>, pruned: Event)
    requires Bounded(rows) && Pass(rows, events, before, infos) && pruned.Prunes?
    requires Enabled(Apply(before, ClearsMissing(known)), pruned)
    ensures var next := Apply(Apply(before, ClearsMissing(known)), pruned);
            Reconciled(rows, events + [ClearsMissing(known), pruned], next, infos, known) && Bounded(next)
  {
    var clear := ClearsMissing(known);
    RunKeepsBounds(rows, events);
    EventKeepsUnique(before, clear);
    EventKeepsFavorites(before, clear);
    hide Apply, Run, AllEnabled, Bounded, Unique, Favorites;
    RanPush(rows, events, before, clear);
    RanPush(rows, events + [clear], Apply(before, clear), pruned);
    PruneBounds(Apply(before, clear), pruned);
    assert events + [clear] + [pruned] == events + [clear, pruned];
    assert (events + [clear, pruned])[..|infos|] == events;
  }

  /** What Reconcile does is a pass in the sense of the replay theorem. */
  lemma ReconciledIsPass(rows: Rows, events: seq<Event>, next: Rows, infos: seq<Info>, known: set<SessionId>)
    requires Reconciled(rows, events, next, infos, known)
    ensures AllReconcile(events) && AllEnabled(rows, events) && next == Run(rows, events)
    ensures EndedIds(events) == set k | 0 <= k < |infos| :: infos[k].id
  {
    hide AllEnabled, Run, Safe;
    var n := |infos|;
    forall k | 0 <= k < n ensures events[k].Ends? && events[k].info.id == infos[k].id {
      assert events[k] == events[..n][k];
      SafeKeepsId(infos[k]);
    }
    var ids := set k | 0 <= k < n :: infos[k].id;
    forall s | s in EndedIds(events) ensures s in ids {
      var k :| 0 <= k < |events| && events[k].Ends? && events[k].info.id == s;
      assert infos[k].id == s;
    }
    forall s | s in ids ensures s in EndedIds(events) {
      var k :| 0 <= k < n && infos[k].id == s;
      assert events[k].info.id == s;
    }
  }

  lemma SafeKeepsId(info: Info)
    ensures Safe(info).id == info.id
  {
  }

  /**
    Two polls: whatever a first Reconcile left, a second one over sessions whose ends the first had
    already recorded changes no timestamp of a row that survives.
  */
  lemma SecondPollKeepsTimestamps(rows: Rows, first: seq<Event>, next: Rows, infos: seq<Info>, known: set<SessionId>,
                                  second: seq<Event>, last: Rows, again: seq<Info>, knownAgain: set<SessionId>)
    requires OneLink(rows) && Reconciled(rows, first, next, infos, known) && Reconciled(next, second, last, again, knownAgain)
    requires forall k | 0 <= k < |again| :: again[k] in infos
    requires NewIdsAvoid(second, next.Keys)
    ensures SameTimes(next, last)
  {
    hide OneLink, SameTimes, NewIdsAvoid, Reconciled;
    ReconciledIsPass(rows, first, next, infos, known);
    ReconciledIsPass(next, second, last, again, knownAgain);
    hide AllReconcile, AllEnabled, EndedIds, Run;
    forall s | s in EndedIds(second) ensures s in EndedIds(first) {
      var k :| 0 <= k < |again| && again[k].id == s;
      var j :| 0 <= j < |infos| && infos[j] == again[k];
      assert infos[j].id == s;
    }
    ReplayKeepsTimestamps(rows, first, second);
  }

  lemma PruneBounds(rows: Rows, pruned: Event)
    requires Unique(rows) && |Favorites(rows)| <= MAX_FAVORITES && pruned.Prunes? && Enabled(rows, pruned)
    ensures Bounded(Apply(rows, pruned))
  {
    hide Unique, Favorites, Others, IsRecent;
    EventKeepsUnique(rows, pruned);
    PruneKeepsTop(rows, pruned.keep);
  }

  lemma CommitOne(rows: Rows, e: Event, pruned: Event)
    requires Bounded(rows) && Enabled(rows, e) && pruned.Prunes? && Enabled(Apply(rows, e), pruned)
    ensures Ran(rows, [e, pruned], Apply(Apply(rows, e), pruned)) && Bounded(Apply(Apply(rows, e), pruned))
  {
    RanNothing(rows);
    EventKeepsUnique(rows, e);
    EventKeepsFavorites(rows, e);
    hide Enabled, Apply, Ran, Unique, Favorites;
    RanPush(rows, [], rows, e);
    RanPush(rows, [e], Apply(rows, e), pruned);
    assert [] + [e] == [e] && [e] + [pruned] == [e, pruned];
    PruneBounds(Apply(rows, e), pruned);
  }

  lemma RanNothing(rows: Rows)
    ensures Ran(rows, [], rows)
  {
  }

  lemma FewerRows(rows: Rows, e: Event)
    requires Bounded(rows) && e.Deletes? && Enabled(rows, e)
    ensures Bounded(Apply(rows, e))
  {
    SubsetIsSmaller(Favorites(Apply(rows, e)), Favorites(rows));
    SubsetIsSmaller(Others(Apply(rows, e)), Others(rows));
  }

  lemma SameRows(rows: Rows, e: Event)
    requires Bounded(rows) && (e.Opens? || e.Renames?) && Enabled(rows, e)
    ensures Bounded(Apply(rows, e))
  {
    SameKinds(rows, e);
    hide Apply, Enabled, Unique, Favorites, Others;
    EventKeepsUnique(rows, e);
  }

  lemma SameKinds(rows: Rows, e: Event)
    requires (e.Opens? || e.Renames?) && Enabled(rows, e)
    ensures Favorites(Apply(rows, e)) == Favorites(rows) && Others(Apply(rows, e)) == Others(rows)
  {
  }
}
