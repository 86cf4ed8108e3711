/**
  The saved-terminal table (terminalhistory/store.go). Times are abstract ordered values: the database
  compares their RFC 3339 text.
*/
module HistoryRows {
  import opened Collections
  import opened Wrappers

  type RowId = string
  type SessionId = string
  type Time = int

  const MAX_FAVORITES := 100
  const MAX_RECENT := 10
  const MAX_SAVED_TERMINALS := 110

  /** `active` is the empty string's absence: a row without an active session has None. */
  datatype Row = Row(source: SessionId, active: Option<SessionId>, name: string, cwd: string, favorite: bool,
                     created: Time, updated: Time, lastOpened: Time, closed: Option<Time>)

  type Rows = map<RowId, Row>

  datatype Info = Info(id: SessionId, running: bool, started: Time, ended: Option<Time>, name: string, cwd: string)

  /** Single statements of committed transactions, with every choice of the database spelled out. */
  datatype Event =
    | Ends(info: Info, found: Option<RowId>, newID: RowId)
    | ClearsMissing(known: set<SessionId>)
    | Prunes(keep: set<RowId>)
    | Saves(info: Info, favorite: bool, now: Time, found: Option<RowId>, newID: RowId)
    | Updates(id: RowId, newName: Option<string>, newFavorite: Option<bool>, now: Time)
    | Deletes(id: RowId)
    | Opens(id: RowId, session: SessionId, at: Time)
    | Renames(session: SessionId, name: string, now: Time)

  predicate Linked(row: Row, session: SessionId) {
    row.source == session || row.active == Some(session)
  }

  /** What `SELECT ... WHERE source_session_id=? OR active_session_id=? LIMIT 1` may yield. */
  predicate Finds(rows: Rows, session: SessionId, found: Option<RowId>) {
    if found.Some? then found.value in rows && Linked(rows[found.value], session)
    else forall r | r in rows :: !Linked(rows[r], session)
  }

  function Favorites(rows: Rows): set<RowId> {
    set r | r in rows && rows[r].favorite
  }

  function Others(rows: Rows): set<RowId> {
    set r | r in rows && !rows[r].favorite
  }

  function Max(a: Time, b: Time): Time {
    if a < b then b else a
  }

  /** `MAX(updated_at, last_lastOpenedat, COALESCE(last_closed_at, ''))` */
  function Activity(row: Row): Time {
    var open := Max(row.updated, row.lastOpened);
    if row.closed.Some? then Max(open, row.closed.value) else open
  }

  /** The rows `ORDER BY activity DESC LIMIT 10` may select among the others. */
  predicate IsRecent(rows: Rows, keep: set<RowId>) {
    && keep <= Others(rows)
    && |keep| == (if |Others(rows)| < MAX_RECENT then |Others(rows)| else MAX_RECENT)
    && forall k, d | k in keep && d in Others(rows) - keep :: Activity(rows[d]) <= Activity(rows[k])
  }

  function Pruned(rows: Rows, keep: set<RowId>): Rows {
    map r | r in rows && (rows[r].favorite || r in keep) :: rows[r]
  }

  function Started(info: Info, ended: Time): Row {
    Row(info.id, None, info.name, info.cwd, false, info.started, ended, info.started, Some(ended))
  }

  predicate CanFavorite(rows: Rows, already: bool) {
    already || |Favorites(rows)| < MAX_FAVORITES
  }

  predicate Enabled(rows: Rows, e: Event) {
    match e
    case Ends(info, found, newID) => !info.running && info.ended.Some? && Finds(rows, info.id, found) && (found.None? ==> newID !in rows)
    case Prunes(keep) => IsRecent(rows, keep)
    case Saves(info, favorite, _, found, newID) =>
      && Finds(rows, info.id, found) && (found.None? ==> newID !in rows)
      && (favorite ==> CanFavorite(rows, found.Some? && rows[found.value].favorite))
    case Updates(id, _, favorite, _) => id in rows && (favorite == Some(true) ==> CanFavorite(rows, rows[id].favorite))
    case Deletes(id) => id in rows
    case Opens(id, session, _) => id in rows && forall r | r in rows && r != id :: rows[r].active != Some(session)
    case _ => true
  }

  /** `reconcileEnded` */
  function EndedRows(rows: Rows, info: Info, found: Option<RowId>, newID: RowId): Rows
    requires Enabled(rows, Ends(info, found, newID))
  {
    var ended := info.ended.value;
    if found.None? then rows[newID := Started(info, ended)]
    else
      var row := rows[found.value];
      if row.closed.Some? && row.active != Some(info.id) then rows
      else rows[found.value := row.(active := if row.active == Some(info.id) then None else row.active,
                                    closed := Some(ended), updated := ended)]
  }

  function Apply(rows: Rows, e: Event): Rows
    requires Enabled(rows, e)
  {
    match e
    case Ends(info, found, newID) => EndedRows(rows, info, found, newID)
    case ClearsMissing(known) =>
      map r | r in rows :: if rows[r].active.Some? && rows[r].active.value !in known then rows[r].(active := None) else rows[r]
    case Prunes(keep) => Pruned(rows, keep)
    case Saves(info, favorite, now, found, newID) =>
      if found.None? then rows[newID := Row(info.id, None, info.name, info.cwd, favorite, now, now, now, None)]
      else rows[found.value := rows[found.value].(favorite := favorite, updated := now)]
    case Updates(id, name, favorite, now) =>
      rows[id := rows[id].(name := if name.Some? then name.value else rows[id].name,
                           favorite := if favorite.Some? then favorite.value else rows[id].favorite,
                           updated := now)]
    case Deletes(id) => rows - {id}
    case Opens(id, session, at) => rows[id := rows[id].(active := Some(session), lastOpened := at, updated := at)]
    case Renames(session, name, now) =>
      map r | r in rows :: if Linked(rows[r], session) then rows[r].(name := name, updated := now) else rows[r]
  }

  /** The statements in order; one that cannot run fails its transaction and changes nothing. */
  function Run(rows: Rows, events: seq<Event>): Rows {
    if events == [] then rows
    else
      var before := Run(rows, events[..|events| - 1]);
      var e := events[|events| - 1];
      if Enabled(before, e) then Apply(before, e) else before
  }

  ghost predicate AllEnabled(rows: Rows, events: seq<Event>) {
    forall k | 0 <= k < |events| :: Enabled(Run(rows, events[..k]), events[k])
  }

  lemma RunPush(rows: Rows, events: seq<Event>, e: Event)
    ensures Run(rows, events + [e]) == if Enabled(Run(rows, events), e) then Apply(Run(rows, events), e) else Run(rows, events)
    ensures AllEnabled(rows, events) && Enabled(Run(rows, events), e) ==> AllEnabled(rows, events + [e])
  {
    assert (events + [e])[..|events|] == events;
    assert forall k | 0 <= k < |events| :: (events + [e])[..k] == events[..k];
  }

  // ---- bounds ----------------------------------------------------------------------------------

  ghost predicate DistinctSources(rows: Rows) {
    forall r, q | r in rows && q in rows && rows[r].source == rows[q].source :: r == q
  }

  ghost predicate DistinctActives(rows: Rows) {
    forall r, q | r in rows && q in rows && rows[r].active.Some? && rows[r].active == rows[q].active :: r == q
  }

  /** The two UNIQUE indexes. */
  ghost predicate Unique(rows: Rows) {
    DistinctSources(rows) && DistinctActives(rows)
  }

  /** What holds between transactions. */
  ghost predicate Bounded(rows: Rows) {
    Unique(rows) && |Favorites(rows)| <= MAX_FAVORITES && |Others(rows)| <= MAX_RECENT
  }

  lemma EventKeepsUnique(rows: Rows, e: Event)
    requires Unique(rows) && Enabled(rows, e)
    ensures Unique(Apply(rows, e))
  {
    hide IsRecent, CanFavorite, Unique;
    var next := Apply(rows, e);
    match e {
      case Ends(_, found, newID) =>
        var id := if found.Some? then found.value else newID;
        OwnSource(rows, id);
        UniqueAt(rows, next, id);
      case Saves(_, _, _, found, newID) =>
        var id := if found.Some? then found.value else newID;
        OwnSource(rows, id);
        UniqueAt(rows, next, id);
      case Opens(id, session, at) => UniqueOpened(rows, id, session, at);
      case _ => UniqueWithin(rows, next);
    }
  }

  lemma OwnSource(rows: Rows, id: RowId)
    requires Unique(rows)
    ensures id in rows ==> forall r | r in rows && r != id :: rows[r].source != rows[id].source
  {
  }

  lemma UniqueOpened(rows: Rows, id: RowId, session: SessionId, at: Time)
    requires Unique(rows) && id in rows && forall r | r in rows && r != id :: rows[r].active != Some(session)
    ensures Unique(rows[id := rows[id].(active := Some(session), lastOpened := at, updated := at)])
  {
  }

  lemma UniqueWithin(rows: Rows, next: Rows)
    requires Unique(rows)
    requires forall r | r in next :: r in rows && next[r].source == rows[r].source && (next[r].active.None? || next[r].active == rows[r].active)
    ensures Unique(next)
  {
  }

  lemma UniqueAt(rows: Rows, next: Rows, id: RowId)
    requires Unique(rows) && next.Keys == rows.Keys + {id} && forall r | r in rows && r != id :: next[r] == rows[r]
    requires forall r | r in rows && r != id :: rows[r].source != next[id].source
    requires next[id].active.None? || (id in rows && next[id].active == rows[id].active)
    ensures Unique(next)
  {
  }

  lemma EventKeepsFavorites(rows: Rows, e: Event)
    requires |Favorites(rows)| <= MAX_FAVORITES && Enabled(rows, e)
    ensures |Favorites(Apply(rows, e))| <= MAX_FAVORITES
  {
    var next := Apply(rows, e);
    match e {
      case Saves(info, favorite, now, found, newID) =>
        var id := if found.Some? then found.value else newID;
        FavoritesAt(rows, next, id);
      case Updates(id, _, _, _) => FavoritesAt(rows, next, id);
      case _ => SubsetIsSmaller(Favorites(next), Favorites(rows));
    }
  }

  lemma FavoritesAt(rows: Rows, next: Rows, id: RowId)
    requires next.Keys == rows.Keys + {id} && forall r | r in rows && r != id :: next[r] == rows[r]
    requires |Favorites(rows)| <= MAX_FAVORITES
    requires next[id].favorite ==> (id in rows && rows[id].favorite) || |Favorites(rows)| < MAX_FAVORITES
    ensures |Favorites(next)| <= MAX_FAVORITES
  {
    FavoritesWith(rows, next, id);
    hide Favorites;
    if id in Favorites(rows) {
      assert Favorites(rows) + {id} == Favorites(rows);
    }
    assert |Favorites(rows) - {id}| <= |Favorites(rows)|;
  }

  lemma FavoritesWith(rows: Rows, next: Rows, id: RowId)
    requires next.Keys == rows.Keys + {id} && forall r | r in rows && r != id :: next[r] == rows[r]
    ensures Favorites(next) == if next[id].favorite then Favorites(rows) + {id} else Favorites(rows) - {id}
    ensures id in Favorites(rows) <==> id in rows && rows[id].favorite
  {
  }

  /** Favorites survive a prune untouched; of the others, ten stay, and none of them is older than one that goes. */
  lemma PruneKeepsTop(rows: Rows, keep: set<RowId>)
    requires IsRecent(rows, keep)
    ensures var next := Pruned(rows, keep);
            && Favorites(next) == Favorites(rows) && Others(next) == keep && |Others(next)| <= MAX_RECENT
            && (forall r | r in next :: r in rows && next[r] == rows[r])
            && (forall k, d | k in Others(next) && d in rows && d !in next :: Activity(rows[d]) <= Activity(next[k]))
            && (|Others(rows)| <= MAX_RECENT ==> next == rows)
  {
    if |Others(rows)| <= MAX_RECENT {
      SameSize(keep, Others(rows));
      assert Pruned(rows, keep) == rows;
    }
  }

  /** Some selection is always possible. */
  lemma {:induction false} RecentExists(rows: Rows, others: set<RowId>, n: nat) returns (keep: set<RowId>)
    requires others <= rows.Keys
    ensures keep <= others && |keep| == if |others| < n then |others| else n
    ensures forall k, d | k in keep && d in others - keep :: Activity(rows[d]) <= Activity(rows[k])
    decreases n
  {
    if n == 0 || others == {} {
      keep := {};
    } else {
      var top := Newest(rows, others);
      keep := RecentExists(rows, others - {top}, n - 1);
      keep := keep + {top};
    }
  }

  lemma {:induction false} Newest(rows: Rows, others: set<RowId>) returns (top: RowId)
    requires others <= rows.Keys && others != {}
    ensures top in others && forall d | d in others :: Activity(rows[d]) <= Activity(rows[top])
    decreases |others|
  {
    var x :| x in others;
    if others == {x} {
      top := x;
    } else {
      var rest := Newest(rows, others - {x});
      top := if Activity(rows[x]) <= Activity(rows[rest]) then rest else x;
    }
  }

  /** A bounded table always fits the browser's decoder. */
  lemma ListingFits(rows: Rows)
    requires Bounded(rows)
    ensures |rows| <= MAX_SAVED_TERMINALS
  {
    assert rows.Keys == Favorites(rows) + Others(rows);
    assert |rows.Keys| == |Favorites(rows)| + |Others(rows)|;
  }
}
