/** Polling the same sessions twice: exactly when the second `Reconcile` changes nothing at all. */
module HistoryPolls {
  import opened Collections
  import opened HistoryReplay
  import opened HistoryRows
  import opened HistoryStore

  predicate Unlinked(rows: Rows, session: SessionId) {
    forall r | r in rows :: !Linked(rows[r], session)
  }

  /** End `k` is the first of a session that no row is linked to, so recording it adds a row. */
  predicate Adds(rows: Rows, infos: seq<Info>, k: nat) {
    k < |infos| && Unlinked(rows, infos[k].id) && forall j | 0 <= j < k :: infos[j].id != infos[k].id
  }

  /** The row that recording an unlinked end adds. */
  function Recorded(info: Info): Row {
    Started(Safe(info), if info.ended.Some? then info.ended.value else info.started)
  }

  ghost predicate AllEnded(infos: seq<Info>) {
    forall k | 0 <= k < |infos| :: HasEnded(infos[k])
  }

  /** `mid` is `rows` with a new row for each session of `infos` that no row was linked to. */
  ghost predicate Added(rows: Rows, mid: Rows, infos: seq<Info>) {
    && (forall r | r in rows :: r in mid && mid[r] == rows[r])
    && (forall r | r in mid && r !in rows :: exists k: nat :: Adds(rows, infos, k) && mid[r] == Recorded(infos[k]))
    && (forall k | 0 <= k < |infos| :: !Unlinked(mid, infos[k].id))
  }

  lemma StillLinked(rows: Rows, next: Rows, session: SessionId)
    requires !Unlinked(rows, session) && forall r | r in rows :: r in next && next[r] == rows[r]
    ensures !Unlinked(next, session)
  {
    var r :| r in rows && Linked(rows[r], session);
    assert Linked(next[r], session);
  }

  /** An end that is found again changes nothing. */
  lemma AddedSame(rows: Rows, mid: Rows, infos: seq<Info>, info: Info)
    requires Added(rows, mid, infos) && !Unlinked(mid, info.id)
    ensures Added(rows, mid, infos + [info])
  {
    hide Unlinked, Recorded;
    var longer := infos + [info];
    forall r | r in mid && r !in rows ensures exists k: nat :: Adds(rows, longer, k) && mid[r] == Recorded(longer[k]) {
      var k: nat :| Adds(rows, infos, k) && mid[r] == Recorded(infos[k]);
      assert Adds(rows, longer, k) && mid[r] == Recorded(longer[k]);
    }
  }

  /** An end that is not found adds its row. */
  lemma AddedNew(rows: Rows, mid: Rows, infos: seq<Info>, info: Info, newID: RowId)
    requires Added(rows, mid, infos) && Unlinked(mid, info.id) && newID !in mid
    ensures Added(rows, mid[newID := Recorded(info)], infos + [info])
  {
    hide Recorded, Unlinked;
    var next, longer := mid[newID := Recorded(info)], infos + [info];
    assert longer[|infos|] == info && forall k | 0 <= k < |infos| :: longer[k] == infos[k];
    LinkedAfter(rows, mid, info, newID);
    forall r | r in next && r !in rows ensures exists k: nat :: Adds(rows, longer, k) && next[r] == Recorded(longer[k]) {
      if r == newID {
        assert Adds(rows, longer, |infos|) && next[r] == Recorded(longer[|infos|]);
      } else {
        var k: nat :| Adds(rows, infos, k) && mid[r] == Recorded(infos[k]);
        assert Adds(rows, longer, k) && next[r] == Recorded(longer[k]);
      }
    }
    forall k | 0 <= k < |longer| ensures !Unlinked(next, longer[k].id) {
      if k < |infos| {
        StillLinked(mid, next, infos[k].id);
      }
    }
  }

  lemma LinkedAfter(rows: Rows, mid: Rows, info: Info, newID: RowId)
    requires Unlinked(mid, info.id) && newID !in mid && forall r | r in rows :: r in mid && mid[r] == rows[r]
    ensures Unlinked(rows, info.id) && !Unlinked(mid[newID := Recorded(info)], info.id)
  {
    var next := mid[newID := Recorded(info)];
    assert Linked(next[newID], info.id);
    forall r | r in rows ensures !Linked(rows[r], info.id) {
      assert !Linked(mid[r], info.id);
    }
  }

  /** Recording a settled end: found, and nothing happens, or not found, and its row is added. */
  lemma EndAdds(rows: Rows, mid: Rows, infos: seq<Info>, info: Info, e: Event)
    requires HasEnded(info) && Added(rows, mid, infos) && Settled(rows, {info.id})
    requires e.Ends? && e.info == Safe(info) && Enabled(mid, e)
    ensures if e.found.Some? then Apply(mid, e) == mid && !Unlinked(mid, info.id)
            else Apply(mid, e) == mid[e.newID := Recorded(info)] && Unlinked(mid, info.id) && e.newID !in mid
  {
    hide SafeName, Unlinked;
    UnlinkedIs(mid, info.id);
    if e.found.Some? {
      var r := e.found.value;
      if r !in rows {
        var k: nat :| Adds(rows, infos, k) && mid[r] == Recorded(infos[k]);
        assert mid[r].closed.Some? && mid[r].active.None?;
      }
    }
  }

  lemma UnlinkedIs(rows: Rows, session: SessionId)
    ensures Unlinked(rows, session) <==> forall r | r in rows :: !Linked(rows[r], session)
  {
  }

  /** The last end of a pass. */
  lemma PassLast(rows: Rows, events: seq<Event>, mid: Rows, infos: seq<Info>)
    requires infos != [] && Pass(rows, events, mid, infos)
    ensures |events| == |infos|
    ensures var n := |infos| - 1;
            var before := Run(rows, events[..n]);
            && Pass(rows, events[..n], before, infos[..n])
            && events[n].Ends? && events[n].info == Safe(infos[n]) && Enabled(before, events[n]) && mid == Apply(before, events[n])
  {
    hide Enabled, Apply, AllEnabled, Run, Safe;
    EnabledPrefix(rows, events);
    LastOf(rows, events);
  }

  lemma NothingAdds(rows: Rows, events: seq<Event>, mid: Rows)
    requires Pass(rows, events, mid, [])
    ensures Added(rows, mid, [])
  {
  }

  lemma {:induction false} EndsAdd(rows: Rows, events: seq<Event>, mid: Rows, infos: seq<Info>)
    requires AllEnded(infos) && Pass(rows, events, mid, infos)
    requires Settled(rows, set k | 0 <= k < |infos| :: infos[k].id)
    ensures Added(rows, mid, infos)
  {
    hide Enabled, Apply, Pass, Run, Added, Settled, Safe, Recorded, Unlinked;
    if infos == [] {
      NothingAdds(rows, events, mid);
    } else {
      var n := |infos| - 1;
      PassLast(rows, events, mid, infos);
      SettledLess(rows, infos);
      var before := Run(rows, events[..n]);
      EndsAdd(rows, events[..n], before, infos[..n]);
      EndAdds(rows, before, infos[..n], infos[n], events[n]);
      assert infos == infos[..n] + [infos[n]];
      if events[n].found.Some? {
        AddedSame(rows, before, infos[..n], infos[n]);
      } else {
        AddedNew(rows, before, infos[..n], infos[n], events[n].newID);
      }
    }
  }

  lemma SettledLess(rows: Rows, infos: seq<Info>)
    requires infos != [] && Settled(rows, set k | 0 <= k < |infos| :: infos[k].id)
    ensures var n := |infos| - 1;
            Settled(rows, set k | 0 <= k < n :: infos[..n][k].id) && Settled(rows, {infos[n].id})
  {
    var n := |infos| - 1;
    var all, fewer := set k | 0 <= k < |infos| :: infos[k].id, set k | 0 <= k < n :: infos[..n][k].id;
    forall s | s in fewer ensures s in all {
      var k :| 0 <= k < n && infos[..n][k].id == s;
      assert infos[k].id == s;
    }
    assert infos[n].id in all;
  }

  // ---- the prune -------------------------------------------------------------------------------

  /** An added row is neither a favorite nor open. */
  lemma AddedIsPlain(rows: Rows, mid: Rows, infos: seq<Info>, r: RowId)
    requires Added(rows, mid, infos) && r in mid && r !in rows
    ensures !mid[r].favorite && mid[r].active.None?
  {
    hide Unlinked;
    var k: nat :| Adds(rows, infos, k) && mid[r] == Recorded(infos[k]);
  }

  lemma OthersAre(rows: Rows, mid: Rows, infos: seq<Info>)
    requires Added(rows, mid, infos)
    ensures Others(mid) == Others(rows) + (mid.Keys - rows.Keys) && Favorites(mid) == Favorites(rows)
  {
    hide Adds, Unlinked, Recorded;
    forall r | r in mid && r !in rows ensures !mid[r].favorite {
      AddedIsPlain(rows, mid, infos, r);
    }
  }

  lemma PrunedBack(rows: Rows, mid: Rows, infos: seq<Info>, keep: set<RowId>)
    requires Added(rows, mid, infos) && keep <= Others(mid)
    ensures Pruned(mid, keep) == rows <==> keep == Others(rows)
  {
    OthersAre(rows, mid, infos);
    OthersOfPruned(mid, keep);
    if keep == Others(rows) {
      SamePruned(rows, mid);
    }
    hide Added, Pruned;
  }

  lemma OthersOfPruned(rows: Rows, keep: set<RowId>)
    requires keep <= Others(rows)
    ensures Others(Pruned(rows, keep)) == keep
  {
  }

  lemma SamePruned(rows: Rows, mid: Rows)
    requires Favorites(mid) == Favorites(rows) && forall r | r in rows :: r in mid && mid[r] == rows[r]
    ensures Pruned(mid, Others(rows)) == rows
  {
    forall r ensures r in rows <==> r in mid && (mid[r].favorite || r in Others(rows)) {
      assert r in mid && mid[r].favorite <==> r in Favorites(mid);
      assert r in Favorites(rows) ==> r in rows;
    }
  }

  /** Every row that was added is older than every recent row, of which there are ten already. */
  ghost predicate NothingComesBack(rows: Rows, infos: seq<Info>) {
    forall k: nat | Adds(rows, infos, k) ::
      |Others(rows)| == MAX_RECENT && forall r | r in Others(rows) :: Activity(Recorded(infos[k])) < Activity(rows[r])
  }

  /** The same about the rows themselves. */
  ghost predicate AddedAreOld(rows: Rows, mid: Rows) {
    forall n | n in mid && n !in rows ::
      |Others(rows)| == MAX_RECENT && forall r | r in Others(rows) :: r in mid && Activity(mid[n]) < Activity(mid[r])
  }

  lemma AddedAreOldIff(rows: Rows, mid: Rows, infos: seq<Info>)
    requires Added(rows, mid, infos)
    ensures AddedAreOld(rows, mid) <==> NothingComesBack(rows, infos)
  {
    hide Recorded, Activity;
    if NothingComesBack(rows, infos) {
      forall n | n in mid && n !in rows
        ensures |Others(rows)| == MAX_RECENT && forall r | r in Others(rows) :: r in mid && Activity(mid[n]) < Activity(mid[r])
      {
        var k: nat :| Adds(rows, infos, k) && mid[n] == Recorded(infos[k]);
      }
    }
    if AddedAreOld(rows, mid) {
      forall k: nat | Adds(rows, infos, k)
        ensures |Others(rows)| == MAX_RECENT && forall r | r in Others(rows) :: Activity(Recorded(infos[k])) < Activity(rows[r])
      {
        var n := AddedRow(rows, mid, infos, k);
      }
    }
  }

  lemma AddedRow(rows: Rows, mid: Rows, infos: seq<Info>, k: nat) returns (n: RowId)
    requires Added(rows, mid, infos) && Adds(rows, infos, k)
    ensures n in mid && n !in rows && mid[n] == Recorded(infos[k])
  {
    n :| n in mid && Linked(mid[n], infos[k].id);
    assert n !in rows;
    var j: nat :| Adds(rows, infos, j) && mid[n] == Recorded(infos[j]);
    assert infos[j].id == infos[k].id;
  }

  /** A selection that must be the old rows: then the new ones are all older. */
  lemma SwapsIn(mid: Rows, kept: set<RowId>, n: RowId, r: RowId)
    requires IsRecent(mid, kept) && n in Others(mid) - kept && r in kept && Activity(mid[n]) >= Activity(mid[r])
    ensures IsRecent(mid, kept - {r} + {n}) && kept - {r} + {n} != kept
  {
    var keep := kept - {r} + {n};
    assert Activity(mid[n]) == Activity(mid[r]);
    assert n in keep;
    assert |keep| == |kept|;
    forall k, d | k in keep && d in Others(mid) - keep ensures Activity(mid[d]) <= Activity(mid[k]) {
      assert d == r || d in Others(mid) - kept;
    }
    hide Activity;
  }

  /** The only possible selections are the old rows, exactly if those are ten and all younger. */
  lemma OnlyOldKept(rows: Rows, mid: Rows, infos: seq<Info>)
    requires Added(rows, mid, infos) && |Others(rows)| <= MAX_RECENT
    ensures (forall keep | IsRecent(mid, keep) :: keep == Others(rows)) <==> AddedAreOld(rows, mid)
  {
    OthersAre(rows, mid, infos);
    hide Added, Activity;
    if AddedAreOld(rows, mid) {
      forall keep | IsRecent(mid, keep) ensures keep == Others(rows) {
        OldOnly(rows, mid, keep);
      }
    } else {
      NewPossible(rows, mid);
    }
  }

  lemma OldOnly(rows: Rows, mid: Rows, keep: set<RowId>)
    requires AddedAreOld(rows, mid) && IsRecent(mid, keep) && |Others(rows)| <= MAX_RECENT
    requires Others(mid) == Others(rows) + (mid.Keys - rows.Keys)
    ensures keep == Others(rows)
  {
    if mid.Keys - rows.Keys == {} {
      assert Others(mid) == Others(rows);
      SameSize(keep, Others(rows));
    } else {
      var some :| some in mid.Keys - rows.Keys;
      assert |Others(rows)| == MAX_RECENT;
      SubsetIsSmaller(Others(rows), Others(mid));
      OldFirst(rows, mid, keep);
      if keep <= Others(rows) {
        SameSize(keep, Others(rows));
      } else {
        SameSize(Others(rows), keep);
      }
    }
  }

  /** No new row is kept before all the old ones are. */
  lemma OldFirst(rows: Rows, mid: Rows, keep: set<RowId>)
    requires AddedAreOld(rows, mid) && IsRecent(mid, keep)
    requires Others(mid) == Others(rows) + (mid.Keys - rows.Keys)
    ensures keep <= Others(rows) || Others(rows) <= keep
  {
    if n :| n in keep && n !in Others(rows) {
      forall r | r in Others(rows) ensures r in keep {
        assert Activity(mid[n]) < Activity(mid[r]);
      }
    }
  }

  lemma NewPossible(rows: Rows, mid: Rows)
    requires !AddedAreOld(rows, mid) && |Others(rows)| <= MAX_RECENT && forall r | r in rows :: r in mid
    requires Others(mid) == Others(rows) + (mid.Keys - rows.Keys)
    ensures exists keep :: IsRecent(mid, keep) && keep != Others(rows)
  {
    var n :| n in mid && n !in rows
             && !(|Others(rows)| == MAX_RECENT && forall r | r in Others(rows) :: r in mid && Activity(mid[n]) < Activity(mid[r]));
    var keep := RecentExists(mid, Others(mid), MAX_RECENT);
    assert IsRecent(mid, keep);
    if keep == Others(rows) {
      SubsetIsSmaller(Others(rows) + {n}, Others(mid));
      assert |Others(rows) + {n}| == |Others(rows)| + 1;
      var r :| r in Others(rows) && Activity(mid[n]) >= Activity(mid[r]);
      SwapsIn(mid, keep, n, r);
    }
  }

  // ---- the result ------------------------------------------------------------------------------

  /** What a completed `Reconcile` leaves for the next. */
  lemma FirstPass(rows: Rows, first: seq<Event>, next: Rows, infos: seq<Info>, known: set<SessionId>)
    requires OneLink(rows) && Reconciled(rows, first, next, infos, known)
    ensures Settled(next, set k | 0 <= k < |infos| :: infos[k].id) && |Others(next)| <= MAX_RECENT
    ensures forall r | r in next && next[r].active.Some? :: next[r].active.value in known
  {
    hide OneLink, Settled, Enabled, IsRecent, Safe, Others;
    ReconciledIsPass(rows, first, next, infos, known);
    PassSettles(rows, first);
    LastTwo(rows, first, next, infos, known);
  }

  lemma LastTwo(rows: Rows, first: seq<Event>, next: Rows, infos: seq<Info>, known: set<SessionId>)
    requires Reconciled(rows, first, next, infos, known)
    ensures |Others(next)| <= MAX_RECENT
    ensures forall r | r in next && next[r].active.Some? :: next[r].active.value in known
  {
    var n := |infos|;
    EnabledPrefix(rows, first);
    LastOf(rows, first);
    EnabledPrefix(rows, first[..n + 1]);
    LastOf(rows, first[..n + 1]);
    assert first[..n + 1][n] == first[n];
    hide Run, AllEnabled, EndsOf, Safe;
    PruneKeepsTop(Run(rows, first[..n + 1]), first[n + 1].keep);
  }

  /** With every active session known, the clearing has nothing to do. */
  lemma NothingMissing(rows: Rows, mid: Rows, infos: seq<Info>, known: set<SessionId>)
    requires Added(rows, mid, infos)
    requires forall r | r in rows && rows[r].active.Some? :: rows[r].active.value in known
    ensures Apply(mid, ClearsMissing(known)) == mid
  {
    hide Adds, Unlinked, Recorded;
    forall r | r in mid && r !in rows ensures mid[r].active.None? {
      AddedIsPlain(rows, mid, infos, r);
    }
  }

  /**
    Polling twice. After a `Reconcile` that left `rows`, a second one that sees only ends the first has
    seen, and knows no fewer sessions, leaves `rows` untouched however the database chooses among equal
    keys, exactly when no session it records again has lost its row, or there are ten recent rows and all
    of them are younger than any such session's.
  */
  lemma SecondPollIsIdleIff(before: Rows, first: seq<Event>, rows: Rows, infos: seq<Info>, known: set<SessionId>,
                            ends: seq<Event>, mid: Rows, again: seq<Info>, knownAgain: set<SessionId>)
    requires OneLink(before) && Reconciled(before, first, rows, infos, known)
    requires AllEnded(again) && (forall k | 0 <= k < |again| :: again[k] in infos) && known <= knownAgain
    requires Pass(rows, ends, mid, again)
    ensures var cleared := Apply(mid, ClearsMissing(knownAgain));
            (forall keep | IsRecent(cleared, keep) :: Pruned(cleared, keep) == rows) <==> NothingComesBack(rows, again)
  {
    hide *;
    FirstPass(before, first, rows, infos, known);
    SettledAgain(rows, infos, again);
    EndsAdd(rows, ends, mid, again);
    NothingMissing(rows, mid, again, knownAgain);
    AddedAreOldIff(rows, mid, again);
    OnlyOldKept(rows, mid, again);
    forall keep | IsRecent(mid, keep) ensures Pruned(mid, keep) == rows <==> keep == Others(rows) {
      RecentIsOthers(mid, keep);
      PrunedBack(rows, mid, again, keep);
    }
  }

  lemma RecentIsOthers(rows: Rows, keep: set<RowId>)
    requires IsRecent(rows, keep)
    ensures keep <= Others(rows)
  {
  }

  lemma SettledAgain(rows: Rows, infos: seq<Info>, again: seq<Info>)
    requires Settled(rows, set k | 0 <= k < |infos| :: infos[k].id) && forall k | 0 <= k < |again| :: again[k] in infos
    ensures Settled(rows, set k | 0 <= k < |again| :: again[k].id)
  {
    var all, some := set k | 0 <= k < |infos| :: infos[k].id, set k | 0 <= k < |again| :: again[k].id;
    forall s | s in some ensures s in all {
      var k :| 0 <= k < |again| && again[k].id == s;
      var j :| 0 <= j < |infos| && infos[j] == again[k];
      assert infos[j].id == s;
    }
  }
}
