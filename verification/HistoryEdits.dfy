/** What a user finds in the saved-terminal table after saving, editing, opening and ending. */
module HistoryEdits {
  import opened HistoryRows
  import opened HistoryStore
  import opened Text
  import opened Wrappers

  /** The key for pruning is the latest of the times a row carries. */
  lemma ActivityIsLatest(row: Row)
    ensures Activity(row) >= row.updated && Activity(row) >= row.lastOpened && (row.closed.Some? ==> Activity(row) >= row.closed.value)
    ensures Activity(row) == row.updated || Activity(row) == row.lastOpened || row.closed == Some(Activity(row))
  {
  }

  /** The two statements of a transaction that ends with a prune. */
  lemma TwoStatements(rows: Rows, e: Event, pruned: Event, next: Rows)
    requires Ran(rows, [e, pruned], next) && pruned.Prunes?
    ensures Enabled(rows, e) && IsRecent(Apply(rows, e), pruned.keep) && next == Pruned(Apply(rows, e), pruned.keep)
  {
    var events := [e, pruned];
    assert events[..0] == [] && events[..1] == [e] && [e][..0] == [];
    assert Enabled(Run(rows, events[..0]), events[0]) && Enabled(Run(rows, events[..1]), events[1]);
    assert Run(rows, []) == rows;
    assert Run(rows, [e]) == Apply(rows, e);
    hide Apply, IsRecent;
  }

  /** Nothing but `id` changes, favorites stay, and what stays of the others is as it was. */
  ghost predicate OnlyTouches(rows: Rows, next: Rows, id: RowId) {
    && (forall r | r in next && r != id :: r in rows && next[r] == rows[r])
    && (forall r | r in rows && r != id && rows[r].favorite :: r in next)
  }

  /**
    After an update the row, if the prune leaves it, has the name and the favorite mark that were asked
    for and is otherwise as it was; a favorite is always left.
  */
  lemma UpdatedRow(rows: Rows, id: RowId, name: Option<string>, favorite: Option<bool>, now: Time, pruned: Event, next: Rows)
    requires Ran(rows, [Updates(id, name, favorite, now), pruned], next) && pruned.Prunes?
    ensures id in rows && OnlyTouches(rows, next, id)
    ensures id in next ==>
              && next[id].name == (if name.Some? then name.value else rows[id].name)
              && next[id].favorite == (if favorite.Some? then favorite.value else rows[id].favorite)
              && next[id].updated == now && next[id] == rows[id].(name := next[id].name, favorite := next[id].favorite, updated := now)
    ensures (if favorite.Some? then favorite.value else rows[id].favorite) ==> id in next
  {
    TwoStatements(rows, Updates(id, name, favorite, now), pruned, next);
    hide Ran, IsRecent;
  }

  /** After saving a session, its row carries the mark asked for; a new one carries the session's name, directory and the time. */
  lemma SavedRow(rows: Rows, e: Event, pruned: Event, next: Rows) returns (id: RowId)
    requires Ran(rows, [e, pruned], next) && e.Saves? && pruned.Prunes?
    ensures OnlyTouches(rows, next, id)
    ensures e.favorite ==> id in next
    ensures id in next ==> Linked(next[id], e.info.id) && next[id].favorite == e.favorite && next[id].updated == e.now
    ensures id in next && id in rows ==> next[id] == rows[id].(favorite := e.favorite, updated := e.now)
    ensures id in next && id !in rows ==> next[id] == Row(e.info.id, None, e.info.name, e.info.cwd, e.favorite, e.now, e.now, e.now, None)
  {
    TwoStatements(rows, e, pruned, next);
    id := if e.found.Some? then e.found.value else e.newID;
    hide Ran, IsRecent;
  }

  /** After recording an end, the session's row, if it is left, is closed at that time or was closed before and stays so. */
  lemma EndedRow(rows: Rows, e: Event, pruned: Event, next: Rows) returns (id: RowId)
    requires Ran(rows, [e, pruned], next) && e.Ends? && pruned.Prunes?
    ensures OnlyTouches(rows, next, id)
    ensures id in next && id !in rows ==> next[id] == Row(e.info.id, None, e.info.name, e.info.cwd, false, e.info.started, e.info.ended.value,
                                                         e.info.started, e.info.ended)
    ensures id in next && id in rows ==>
              && Linked(rows[id], e.info.id) && next[id].active != Some(e.info.id)
              && (if rows[id].closed.Some? && rows[id].active != Some(e.info.id) then next[id] == rows[id]
                  else next[id].closed == e.info.ended && next[id].updated == e.info.ended.value
                       && next[id] == rows[id].(active := next[id].active, closed := next[id].closed, updated := next[id].updated))
  {
    TwoStatements(rows, e, pruned, next);
    id := if e.found.Some? then e.found.value else e.newID;
    hide Ran, IsRecent;
  }

  // ---- names -----------------------------------------------------------------------------------

  lemma {:induction false} WithoutNulIs(s: string)
    ensures forall c :: c in WithoutNul(s) <==> c in s && c != '\0'
    ensures '\0' !in s ==> WithoutNul(s) == s
  {
    if s != "" {
      WithoutNulIs(s[1..]);
      assert s == [s[0]] + s[1..];
    }
  }

  predicate Blank(name: string) {
    forall c | c in name :: IsSpace(c) || c == '\0'
  }

  /**
    A stored name is never empty, has at most 80 characters and no NUL. A name that is fine already is
    stored as it is; one with nothing to show becomes a default; any other loses what surrounds it, and
    what is beyond 80 characters.
  */
  lemma StoredName(name: string)
    ensures 0 < |SafeName(name)| <= 80 && '\0' !in SafeName(name)
    ensures name != "" && |name| <= 80 && '\0' !in name && IsTrimmed(name) ==> SafeName(name) == name
    ensures Blank(name) ==> SafeName(name) == "Terminal"
    ensures !Blank(name) && '\0' !in name ==>
              exists a, b :: 0 <= a < b <= |name| && IsMiddle(name, a, b) && SafeName(name) == if b - a <= 80 then name[a..b] else name[a..a + 80]
  {
    WithoutNulIs(name);
    BlankIff(name);
    FineName(name);
    hide WithoutNul, TrimSpace, IsTrimmed, IsMiddle, Blank;
    if !Blank(name) {
      var clean := WithoutNul(name);
      var a, b := TrimmedMiddle(clean);
      SliceIn(clean, a, b);
      TakeOfSlice(clean, a, b, 80);
      assert SafeName(name) == if b - a <= 80 then clean[a..b] else clean[a..a + 80];
      assert '\0' !in name ==> clean == name && 0 <= a < b <= |name| && IsMiddle(name, a, b);
    }
  }

  lemma BlankIff(name: string)
    ensures Blank(name) <==> TrimSpace(WithoutNul(name)) == ""
  {
    var clean := WithoutNul(name);
    WithoutNulIs(name);
    SpacesOnly(clean);
    hide WithoutNul, TrimSpace, IsSpace;
    assert Blank(name) <==> forall k | 0 <= k < |clean| :: IsSpace(clean[k]);
  }

  lemma FineName(name: string)
    ensures name != "" && |name| <= 80 && '\0' !in name && IsTrimmed(name) ==> SafeName(name) == name
  {
    WithoutNulIs(name);
    if IsTrimmed(name) {
      TrimSpaceFixed(name);
    }
    hide WithoutNul, TrimSpace, IsTrimmed;
  }

  lemma SliceIn(s: string, a: nat, b: nat)
    requires a < b <= |s| && '\0' !in s
    ensures '\0' !in s[a..b] && (b - a > 80 ==> '\0' !in s[a..b][..80])
  {
  }

  lemma TakeOfSlice(s: string, a: nat, b: nat, n: nat)
    requires a <= b <= |s|
    ensures b - a > n ==> s[a..b][..n] == s[a..a + n]
  {
  }
}
