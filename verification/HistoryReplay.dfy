/**
  Replaying ended sessions against the saved-terminal table: `Reconcile` and `RecordEnded` see the
  same ended sessions over and over, in any order.
*/
module HistoryReplay {
  import opened HistoryRows
  import opened Wrappers

  /** What `Reconcile` and `RecordEnded` execute. */
  predicate Reconciles(e: Event) {
    e.Ends? || e.ClearsMissing? || e.Prunes?
  }

  ghost predicate AllReconcile(events: seq<Event>) {
    forall k | 0 <= k < |events| :: Reconciles(events[k])
  }

  ghost function EndedIds(events: seq<Event>): set<SessionId> {
    set k | 0 <= k < |events| && events[k].Ends? :: events[k].info.id
  }

  datatype Times = Times(created: Time, updated: Time, lastOpened: Time, closed: Option<Time>)

  function TimesOf(row: Row): Times {
    Times(row.created, row.updated, row.lastOpened, row.closed)
  }

  /** Each session id links to at most one row. */
  ghost predicate OneLink(rows: Rows) {
    forall s: SessionId, r, q | r in rows && q in rows && Linked(rows[r], s) && Linked(rows[q], s) :: r == q
  }

  /** Every row linked to one of `ids` already has its close recorded. */
  ghost predicate Settled(rows: Rows, ids: set<SessionId>) {
    forall s, r | s in ids && r in rows && Linked(rows[r], s) :: rows[r].closed.Some? && rows[r].active != Some(s)
  }

  // ---- what one statement does -----------------------------------------------------------------

  /**
    A close time changes only for a row that was never closed, or whose active session is the one that
    ended; no other history operation touches it.
  */
  lemma CloseTimeChanges(rows: Rows, e: Event, r: RowId)
    requires Enabled(rows, e) && r in rows && r in Apply(rows, e)
    ensures Apply(rows, e)[r].closed != rows[r].closed ==>
              && e.Ends? && Linked(rows[r], e.info.id) && Apply(rows, e)[r].closed == e.info.ended
              && (rows[r].closed.None? || rows[r].active == Some(e.info.id))
  {
  }

  /** Conversely such a row does get the time of the end. */
  lemma EndIsRecorded(rows: Rows, e: Event, r: RowId)
    requires Enabled(rows, e) && e.Ends? && OneLink(rows) && r in rows && Linked(rows[r], e.info.id)
    requires rows[r].closed.None? || rows[r].active == Some(e.info.id)
    ensures r in Apply(rows, e) && Apply(rows, e)[r].closed == e.info.ended && Apply(rows, e)[r].active != Some(e.info.id)
  {
  }

  /** Only opening a row under an already linked session id could give a session two rows. */
  lemma EventKeepsOneLink(rows: Rows, e: Event)
    requires OneLink(rows) && Enabled(rows, e)
    requires e.Opens? ==> forall r | r in rows && r != e.id :: !Linked(rows[r], e.session)
    ensures OneLink(Apply(rows, e))
  {
    hide IsRecent, CanFavorite;
    var next := Apply(rows, e);
    match e {
      case Ends(info, found, newID) => LinkAt(rows, next, if found.Some? then found.value else newID);
      case Saves(info, _, _, found, newID) => LinkAt(rows, next, if found.Some? then found.value else newID);
      case Updates(id, _, _, _) => LinkAt(rows, next, id);
      case Opens(id, session, _) => LinkAt(rows, next, id);
      case _ => assert forall r, t: SessionId | r in next && Linked(next[r], t) :: r in rows && Linked(rows[r], t);
    }
  }

  lemma LinkAt(rows: Rows, next: Rows, id: RowId)
    requires OneLink(rows) && next.Keys == rows.Keys + {id} && forall r | r in rows && r != id :: next[r] == rows[r]
    requires forall s: SessionId | Linked(next[id], s) ::
               (id in rows && Linked(rows[id], s)) || forall r | r in rows && r != id :: !Linked(rows[r], s)
    ensures OneLink(next)
  {
  }

  lemma EndSettles(rows: Rows, e: Event)
    requires OneLink(rows) && Enabled(rows, e) && e.Ends?
    ensures Settled(Apply(rows, e), {e.info.id})
  {
    EventKeepsOneLink(rows, e);
  }

  lemma EventKeepsSettled(rows: Rows, e: Event, ids: set<SessionId>)
    requires OneLink(rows) && Enabled(rows, e) && Reconciles(e) && Settled(rows, ids)
    ensures Settled(Apply(rows, e), ids)
  {
    hide IsRecent;
    if e.Ends? {
      forall s, r | s in ids && r in Apply(rows, e) && Linked(Apply(rows, e)[r], s)
        ensures Apply(rows, e)[r].closed.Some? && Apply(rows, e)[r].active != Some(s)
      {
        if r in rows {
          assert Linked(rows[r], s);
        }
      }
    }
  }

  /** A settled session's end changes no row; at most it adds one. */
  lemma SettledEndIsQuiet(rows: Rows, e: Event, ids: set<SessionId>)
    requires Enabled(rows, e) && e.Ends? && e.info.id in ids && Settled(rows, ids)
    ensures if e.found.Some? then Apply(rows, e) == rows else Apply(rows, e) == rows[e.newID := Started(e.info, e.info.ended.value)]
  {
  }

  // ---- replays ---------------------------------------------------------------------------------

  /** Executed or not, one more statement. */
  lemma LastOf(rows: Rows, events: seq<Event>)
    requires events != []
    ensures var before, e := Run(rows, events[..|events| - 1]), events[|events| - 1];
            Run(rows, events) == if Enabled(before, e) then Apply(before, e) else before
  {
  }

  lemma {:induction false} RunKeepsOneLink(rows: Rows, events: seq<Event>)
    requires OneLink(rows) && AllReconcile(events)
    ensures OneLink(Run(rows, events))
  {
    hide OneLink, Enabled, Apply;
    if events != [] {
      var n := |events| - 1;
      RunKeepsOneLink(rows, events[..n]);
      LastOf(rows, events);
      if Enabled(Run(rows, events[..n]), events[n]) {
        EventKeepsOneLink(Run(rows, events[..n]), events[n]);
      }
    }
  }

  lemma EnabledPrefix(rows: Rows, events: seq<Event>)
    requires events != [] && AllEnabled(rows, events)
    ensures AllEnabled(rows, events[..|events| - 1]) && Enabled(Run(rows, events[..|events| - 1]), events[|events| - 1])
  {
    assert forall k | 0 <= k < |events| - 1 :: events[..|events| - 1][..k] == events[..k];
  }

  lemma SettledUnion(rows: Rows, a: set<SessionId>, b: set<SessionId>)
    requires Settled(rows, a) && Settled(rows, b)
    ensures Settled(rows, a + b)
  {
  }

  lemma NothingToSettle(rows: Rows, events: seq<Event>)
    requires events == []
    ensures Settled(Run(rows, events), EndedIds(events))
  {
  }

  /** After a pass, every session that ended in it is settled. */
  lemma {:induction false} PassSettles(rows: Rows, events: seq<Event>)
    requires OneLink(rows) && AllReconcile(events) && AllEnabled(rows, events)
    ensures Settled(Run(rows, events), EndedIds(events))
  {
    hide OneLink, Enabled, Apply, AllEnabled, Settled, EndedIds, Run;
    if events != [] {
      var n := |events| - 1;
      EnabledPrefix(rows, events);
      PassSettles(rows, events[..n]);
      LastOf(rows, events);
      RunKeepsOneLink(rows, events[..n]);
      EventKeepsSettled(Run(rows, events[..n]), events[n], EndedIds(events[..n]));
      EndedIdsPush(events);
      if events[n].Ends? {
        EndSettles(Run(rows, events[..n]), events[n]);
        SettledUnion(Run(rows, events), EndedIds(events[..n]), {events[n].info.id});
      } else {
        assert EndedIds(events) == EndedIds(events[..n]);
      }
    } else {
      NothingToSettle(rows, events);
    }
  }

  lemma EndedIdsPush(events: seq<Event>)
    requires events != []
    ensures var n := |events| - 1;
            EndedIds(events) == EndedIds(events[..n]) + if events[n].Ends? then {events[n].info.id} else {}
  {
    var n := |events| - 1;
    var last := if events[n].Ends? then {events[n].info.id} else {};
    forall s | s in EndedIds(events) ensures s in EndedIds(events[..n]) + last {
      var k :| 0 <= k < |events| && events[k].Ends? && events[k].info.id == s;
      assert k < n ==> events[..n][k] == events[k];
    }
    forall s | s in EndedIds(events[..n]) + last ensures s in EndedIds(events) {
      if s in EndedIds(events[..n]) {
        var k :| 0 <= k < n && events[..n][k].Ends? && events[..n][k].info.id == s;
        assert events[k].info.id == s;
      }
    }
  }

  /** Rows of `rows` that are still in `next` keep their timestamps. */
  ghost predicate SameTimes(rows: Rows, next: Rows) {
    forall r | r in rows && r in next :: TimesOf(next[r]) == TimesOf(rows[r])
  }

  /** Ids of inserted rows are random and do not come back. */
  ghost predicate NewIdsAvoid(events: seq<Event>, used: set<RowId>) {
    forall k | 0 <= k < |events| && events[k].Ends? :: events[k].newID !in used
  }

  lemma {:induction false} SettledRunKeepsTimes(rows: Rows, events: seq<Event>, ids: set<SessionId>)
    requires OneLink(rows) && Settled(rows, ids) && AllReconcile(events) && EndedIds(events) <= ids
    requires NewIdsAvoid(events, rows.Keys)
    ensures SameTimes(rows, Run(rows, events)) && Settled(Run(rows, events), ids)
  {
    if events != [] {
      var n := |events| - 1;
      EndedIdsPush(events);
      var before, e := Run(rows, events[..n]), events[n];
      hide OneLink, Settled, EndedIds, IsRecent;
      SettledRunKeepsTimes(rows, events[..n], ids);
      LastOf(rows, events);
      if Enabled(before, e) {
        RunKeepsOneLink(rows, events[..n]);
        EventKeepsSettled(before, e, ids);
        if e.Ends? {
          SettledEndIsQuiet(before, e, ids);
        }
      }
    }
  }

  /**
    After a pass over some ended sessions, replaying any of them, in any order and any number of times,
    with whatever pruning and clearing in between, leaves the timestamps of every surviving row as the
    pass left them.
  */
  lemma ReplayKeepsTimestamps(rows: Rows, pass: seq<Event>, replay: seq<Event>)
    requires OneLink(rows) && AllReconcile(pass) && AllEnabled(rows, pass)
    requires AllReconcile(replay) && EndedIds(replay) <= EndedIds(pass) && NewIdsAvoid(replay, Run(rows, pass).Keys)
    ensures SameTimes(Run(rows, pass), Run(Run(rows, pass), replay))
  {
    hide OneLink, Settled, Enabled, Apply, SameTimes;
    PassSettles(rows, pass);
    RunKeepsOneLink(rows, pass);
    SettledRunKeepsTimes(Run(rows, pass), replay, EndedIds(pass));
  }

  // ---- exactly when an end can be replayed without any effect ------------------------------------

  /** The session is linked to its row only because it was reopened there. */
  predicate ReopenedOnly(rows: Rows, e: Event) {
    e.Ends? && e.found.Some? && e.found.value in rows && rows[e.found.value].active == Some(e.info.id)
    && rows[e.found.value].source != e.info.id
  }

  /**
    The documentation calls reconciliation idempotent. It is, except for a session that was linked to
    its row only by being reopened there: recording its end cuts the link, and recording it again adds
    a second row for it.
  */
  lemma IdempotentUnlessReopened(rows: Rows, e: Event, again: Event)
    requires OneLink(rows) && Enabled(rows, e) && e.Ends? && again.Ends? && again.info == e.info
    requires Enabled(Apply(rows, e), again)
    ensures Apply(Apply(rows, e), again) == Apply(rows, e) <==> !ReopenedOnly(rows, e)
    ensures ReopenedOnly(rows, e) ==> Apply(Apply(rows, e), again) == Apply(rows, e)[again.newID := Started(e.info, e.info.ended.value)]
  {
    var next := Apply(rows, e);
    EndSettles(rows, e);
    SettledEndIsQuiet(next, again, {e.info.id});
    if e.found.None? {
      assert Linked(next[e.newID], e.info.id);
    } else {
      var r := e.found.value;
      assert !ReopenedOnly(rows, e) ==> Linked(next[r], e.info.id);
      assert forall q | q in rows && q != r :: !Linked(rows[q], e.info.id);
    }
  }

  /** A favorite saved from session "a" and reopened as "b": polling twice after "b" ends adds a row. */
  lemma ReopenedSessionIsRecordedTwice(now: Time)
    ensures var row := Row("a", Some("b"), "shell", "/", true, now, now, now, None);
            var e := Ends(Info("b", false, now, Some(now), "shell", "/"), Some("x"), "y");
            var again := Ends(e.info, None, "z");
            && Enabled(map["x" := row], e) && Enabled(Apply(map["x" := row], e), again)
            && Apply(map["x" := row], e).Keys == {"x"} && Apply(Apply(map["x" := row], e), again).Keys == {"x", "z"}
  {
    assert "a" != "b" && "x" != "y" && "x" != "z" by {
      assert "a"[0] != "b"[0] && "x"[0] != "y"[0] && "x"[0] != "z"[0];
    }
  }
}
