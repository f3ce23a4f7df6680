/** Keyset pagination over a table that changes between pages. */
module Paging {
  import opened Schema
  import opened Ordering
  import opened Evolution
  import opened Protocol
  import opened Safety

  datatype Filter = Filter(organization: Name, state: Option<InvitationState>, email: Option<Name>)

  datatype Cursor = Cursor(createdAt: Time, id: Uuid)

  datatype Page = Page(ids: seq<Uuid>, next: Option<Cursor>)

  predicate Wanted(row: Invitation, filter: Filter) {
    row.organization == filter.organization &&
    (filter.state.Some? ==> row.state == filter.state.value) &&
    (filter.email.Some? ==> row.emailNormalized == filter.email.value)
  }

  /** `(created_at, invitation_id) < (a, b)`. */
  predicate Below(createdAt: Time, id: Uuid, cursor: Cursor) {
    createdAt < cursor.createdAt || (createdAt == cursor.createdAt && id < cursor.id)
  }

  predicate Past(createdAt: Time, id: Uuid, cursor: Option<Cursor>) {
    cursor.Some? ==> Below(createdAt, id, cursor.value)
  }

  /** The rows a query selects, with what it orders them by. */
  function Rows(invitations: Invitations, filter: Filter, cursor: Option<Cursor>): map<Uuid, Time> {
    map i | i in invitations && Wanted(invitations[i], filter) && Past(invitations[i].createdAt, i, cursor) ::
      invitations[i].createdAt
  }

  // -------------------------------------------------------- descending order

  function Reverse(ids: seq<Uuid>): (r: seq<Uuid>)
    ensures |r| == |ids|
  {
    seq(|ids|, n requires 0 <= n < |ids| => ids[|ids| - 1 - n])
  }

  /** `ORDER BY created_at DESC, invitation_id DESC`. */
  function Newest(keys: map<Uuid, Time>): seq<Uuid> {
    Reverse(Sorted(keys))
  }

  ghost predicate ListsDown(keys: map<Uuid, Time>, ids: seq<Uuid>) {
    && (forall n | 0 <= n < |ids| :: ids[n] in keys)
    && (forall i | i in keys :: i in ids)
    && (forall m, n | 0 <= m < n < |ids| ::
          ids[m] in keys && ids[n] in keys && ids[m] != ids[n] && Before(keys, ids[n], ids[m]))
  }

  lemma NewestListsDown(keys: map<Uuid, Time>)
    ensures ListsDown(keys, Newest(keys)) && |Newest(keys)| == |keys|
  {
    hide Sorted, Before, Reverse;
    SortedLists(keys);
    ReverseKeepsMembers(Sorted(keys));
    ReverseTurnsOrder(keys, Sorted(keys));
  }

  lemma ReverseKeepsMembers(ids: seq<Uuid>)
    ensures forall i :: i in Reverse(ids) <==> i in ids
  {
    forall i | i in ids ensures i in Reverse(ids) {
      var q :| 0 <= q < |ids| && ids[q] == i;
      assert Reverse(ids)[|ids| - 1 - q] == i;
    }
  }

  lemma ReverseTurnsOrder(keys: map<Uuid, Time>, ids: seq<Uuid>)
    requires Lists(keys, ids)
    ensures forall m, n | 0 <= m < n < |ids| ::
      Reverse(ids)[m] in keys && Reverse(ids)[n] in keys && Reverse(ids)[m] != Reverse(ids)[n] &&
      Before(keys, Reverse(ids)[n], Reverse(ids)[m])
  {
    hide Before;
    forall m, n | 0 <= m < n < |ids|
      ensures Reverse(ids)[m] in keys && Reverse(ids)[n] in keys && Reverse(ids)[m] != Reverse(ids)[n] &&
              Before(keys, Reverse(ids)[n], Reverse(ids)[m])
    {
      assert Reverse(ids)[m] == ids[|ids| - 1 - m] && Reverse(ids)[n] == ids[|ids| - 1 - n];
    }
  }

  lemma {:induction false} ListingLength(keys: map<Uuid, Time>, ids: seq<Uuid>)
    requires ListsDown(keys, ids)
    ensures |ids| == |keys|
    decreases |ids|
  {
    if ids == [] {
      assert keys.Keys == {};
    } else {
      WithoutFirst(keys, ids);
      ListingLength(keys - {ids[0]}, ids[1..]);
      WithoutLeast(keys, ids[0]);
    }
  }

  /** There is one such listing only. */
  lemma {:induction false} ListingIsUnique(keys: map<Uuid, Time>, a: seq<Uuid>, b: seq<Uuid>)
    requires ListsDown(keys, a) && ListsDown(keys, b)
    ensures a == b
    decreases |a|
  {
    ListingLength(keys, a);
    ListingLength(keys, b);
    if a != [] {
      assert a[0] in b && b[0] in a;
      assert a[0] == b[0];
      WithoutFirst(keys, a);
      WithoutFirst(keys, b);
      ListingIsUnique(keys - {a[0]}, a[1..], b[1..]);
      assert a == [a[0]] + a[1..] && b == [b[0]] + b[1..];
    }
  }

  lemma WithoutFirst(keys: map<Uuid, Time>, ids: seq<Uuid>)
    requires ListsDown(keys, ids) && ids != []
    ensures ListsDown(keys - {ids[0]}, ids[1..])
  {
    var rest := keys - {ids[0]};
    forall i | i in rest ensures i in ids[1..] {
      var q :| 0 <= q < |ids| && ids[q] == i;
      assert ids[1..][q - 1] == i;
    }
    forall m, n | 0 <= m < n < |ids[1..]|
      ensures ids[1..][m] in rest && ids[1..][n] in rest && ids[1..][m] != ids[1..][n]
      ensures Before(rest, ids[1..][n], ids[1..][m])
    {
      assert Before(keys, ids[n + 1], ids[m + 1]);
      assert ids[0] != ids[m + 1] && ids[0] != ids[n + 1];
    }
  }

  // -------------------------------------------------------------------- pages

  function CursorOf(invitations: Invitations, id: Uuid): Cursor
    requires id in invitations
  {
    Cursor(invitations[id].createdAt, id)
  }

  lemma NewestAreRows(invitations: Invitations, filter: Filter, cursor: Option<Cursor>)
    ensures var ids := Newest(Rows(invitations, filter, cursor));
      forall n | 0 <= n < |ids| :: ids[n] in invitations
  {
    hide Newest;
    NewestListsDown(Rows(invitations, filter, cursor));
  }

  /** `list_invitations`: one row more than the limit tells whether there is another page. */
  function PageOf(invitations: Invitations, filter: Filter, cursor: Option<Cursor>, limit: nat): Page
    requires 1 <= limit
  {
    var ids := Newest(Rows(invitations, filter, cursor));
    NewestAreRows(invitations, filter, cursor);
    if |ids| > limit then Page(ids[..limit], Some(CursorOf(invitations, ids[limit - 1]))) else Page(ids, None)
  }

  /** What a caller gets: at most `limit` invitations of the organization, with the state and the address asked for,
      as their rows show them, strictly newest first; a cursor only at a full page, naming its last invitation. */
  ghost predicate PageShows(table: Invitations, organization: Name, state: Option<InvitationState>, email: Option<Name>,
                            limit: nat, views: seq<InvitationView>, next: Option<Cursor>) {
    && |views| <= limit
    && (forall n | 0 <= n < |views| ::
          && views[n].invitation in table && Shows(views[n], views[n].invitation, table[views[n].invitation])
          && views[n].organization == organization
          && (state.Some? ==> views[n].state == state.value)
          && (email.Some? ==> table[views[n].invitation].emailNormalized == email.value))
    && (forall m, n | 0 <= m < n < |views| ::
          views[n].createdAt < views[m].createdAt ||
          (views[n].createdAt == views[m].createdAt && views[n].invitation < views[m].invitation))
    && (next.Some? ==>
          |views| == limit >= 1 &&
          next.value == Cursor(views[limit - 1].createdAt, views[limit - 1].invitation))
  }

  /** No invitation asked for is missing but those behind the cursor of the next page, and those an earlier page ended
      with or before. */
  ghost predicate PageOmits(table: Invitations, organization: Name, state: Option<InvitationState>, email: Option<Name>,
                            cursor: Option<Cursor>, views: seq<InvitationView>, next: Option<Cursor>) {
    forall i | i in table && table[i].organization == organization && (state.Some? ==> table[i].state == state.value) &&
               (email.Some? ==> table[i].emailNormalized == email.value) ::
      || (exists n :: 0 <= n < |views| && views[n].invitation == i)
      || (next.Some? && (table[i].createdAt < next.value.createdAt ||
                         (table[i].createdAt == next.value.createdAt && i < next.value.id)))
      || (cursor.Some? && !(table[i].createdAt < cursor.value.createdAt ||
                            (table[i].createdAt == cursor.value.createdAt && i < cursor.value.id)))
  }

  /** The views of a page. */
  predicate ViewsOf(table: Invitations, page: Page, views: seq<InvitationView>) {
    |views| == |page.ids| && forall n | 0 <= n < |page.ids| ::
      page.ids[n] in table && views[n] == View(page.ids[n], table[page.ids[n]])
  }

  /** The first rows of the listing. */
  lemma FirstRowsAreShown(table: Invitations, filter: Filter, cursor: Option<Cursor>, limit: nat,
                          views: seq<InvitationView>)
    requires var ids := Newest(Rows(table, filter, cursor));
      |views| <= Min(limit, |ids|) && forall n | 0 <= n < |views| ::
        ids[n] in table && views[n] == View(ids[n], table[ids[n]])
    ensures PageShows(table, filter.organization, filter.state, filter.email, limit, views, None)
  {
    hide Newest, Past;
    NewestListsDown(Rows(table, filter, cursor));
  }

  lemma PageIsShown(table: Invitations, filter: Filter, cursor: Option<Cursor>, limit: nat, views: seq<InvitationView>)
    requires 1 <= limit && ViewsOf(table, PageOf(table, filter, cursor, limit), views)
    ensures PageShows(table, filter.organization, filter.state, filter.email, limit, views,
                      PageOf(table, filter, cursor, limit).next)
  {
    hide Newest, Past;
    PageTakesNewest(table, filter, cursor, limit);
  }

  lemma PageOmitsOthers(table: Invitations, filter: Filter, cursor: Option<Cursor>, limit: nat,
                        views: seq<InvitationView>)
    requires 1 <= limit && ViewsOf(table, PageOf(table, filter, cursor, limit), views)
    ensures PageOmits(table, filter.organization, filter.state, filter.email, cursor, views,
                      PageOf(table, filter, cursor, limit).next)
  {
    hide PageOf, View;
    var page := PageOf(table, filter, cursor, limit);
    forall i | i in Rows(table, filter, cursor)
      ensures (exists n :: 0 <= n < |views| && views[n].invitation == i) ||
              (page.next.Some? && Below(table[i].createdAt, i, page.next.value))
    {
      PageLeavesPast(table, filter, cursor, limit, i);
      if i in page.ids {
        var n :| 0 <= n < |page.ids| && page.ids[n] == i;
        ViewNamesRow(i, table[i]);
        assert views[n].invitation == i;
      }
    }
  }

  lemma ViewNamesRow(id: Uuid, row: Invitation)
    ensures View(id, row).invitation == id
  {
  }

  // -------------------------------------------------------------------- walks

  datatype Walk = Walk(ids: seq<Uuid>, cursor: Option<Cursor>, finished: bool)

  predicate ValidLimits(limits: seq<nat>) {
    forall n | 0 <= n < |limits| :: 1 <= limits[n] <= 100
  }

  /** Following `next_cursor` for `n` pages; page `m` reads the table as it is then. */
  function WalkTo(tables: seq<Invitations>, filter: Filter, limits: seq<nat>, n: nat): Walk
    requires n <= |tables| && n <= |limits| && ValidLimits(limits)
  {
    if n == 0 then Walk([], None, false)
    else
      var w := WalkTo(tables, filter, limits, n - 1);
      if w.finished then w
      else
        var page := PageOf(tables[n - 1], filter, w.cursor, limits[n - 1]);
        Walk(w.ids + page.ids, page.next, page.next.None?)
  }

  /** Tables read one after another in a run. */
  ghost predicate Successive(tables: seq<Invitations>) {
    forall m, n | 0 <= m <= n < |tables| :: InvitationsEvolve(tables[m], tables[n])
  }

  /** The rows of a page are selected rows, strictly descending; its cursor is its last row. */
  lemma PageTakesNewest(invitations: Invitations, filter: Filter, cursor: Option<Cursor>, limit: nat)
    requires 1 <= limit
    ensures var page := PageOf(invitations, filter, cursor, limit);
      var keys := Rows(invitations, filter, cursor);
      && (forall n | 0 <= n < |page.ids| :: page.ids[n] in keys)
      && (forall m, n | 0 <= m < n < |page.ids| :: Below(keys[page.ids[n]], page.ids[n],
                                                         Cursor(keys[page.ids[m]], page.ids[m])))
      && (page.next.Some? ==>
            |page.ids| == limit && page.next.value == Cursor(keys[page.ids[limit - 1]], page.ids[limit - 1]))
  {
    hide Newest, Wanted, Past;
    NewestListsDown(Rows(invitations, filter, cursor));
    NewestAreRows(invitations, filter, cursor);
  }

  /** What a page leaves out lies past its cursor. */
  lemma PageLeavesPast(invitations: Invitations, filter: Filter, cursor: Option<Cursor>, limit: nat, i: Uuid)
    requires 1 <= limit && i in Rows(invitations, filter, cursor)
    ensures var page := PageOf(invitations, filter, cursor, limit);
      i in page.ids || (page.next.Some? && Below(invitations[i].createdAt, i, page.next.value))
  {
    hide Newest, Wanted, Past;
    var keys := Rows(invitations, filter, cursor);
    var ids := Newest(keys);
    NewestListsDown(keys);
    NewestAreRows(invitations, filter, cursor);
    if |ids| > limit && i !in ids[..limit] {
      var tail := ids[limit..];
      assert ids == ids[..limit] + tail;
      var p :| 0 <= p < |tail| && tail[p] == i;
      assert ids[limit + p] == i;
      assert Before(keys, ids[limit + p], ids[limit - 1]);
    }
  }

  /** Where a row stands in the order. */
  predicate Under(table: Invitations, i: Uuid, j: Uuid)
    requires i in table && j in table
  {
    Below(table[i].createdAt, i, CursorOf(table, j))
  }

  /** What a walk has collected so far, seen in any table from the last one it read on. */
  ghost predicate Collected(w: Walk, table: Invitations) {
    && (forall m | 0 <= m < |w.ids| :: w.ids[m] in table)
    && (forall m, n | 0 <= m < n < |w.ids| :: Under(table, w.ids[n], w.ids[m]))
    && (w.cursor.Some? ==> w.ids != [] && w.cursor.value == CursorOf(table, w.ids[|w.ids| - 1]))
    && (w.cursor.None? && !w.finished ==> w.ids == [])
  }

  lemma CollectedLater(w: Walk, table: Invitations, later: Invitations)
    requires Collected(w, table) && InvitationsEvolve(table, later)
    ensures Collected(w, later)
  {
    forall m | 0 <= m < |w.ids| ensures w.ids[m] in later && later[w.ids[m]].createdAt == table[w.ids[m]].createdAt {
      assert RowEvolves(table[w.ids[m]], later[w.ids[m]]);
    }
  }

  lemma CollectPage(w: Walk, table: Invitations, filter: Filter, limit: nat)
    requires Collected(w, table) && !w.finished && 1 <= limit
    ensures var page := PageOf(table, filter, w.cursor, limit);
      Collected(Walk(w.ids + page.ids, page.next, page.next.None?), table)
  {
    hide Newest, PageOf;
    var page := PageOf(table, filter, w.cursor, limit);
    PageTakesNewest(table, filter, w.cursor, limit);
    var ids := w.ids + page.ids;
    forall m, n | 0 <= m < n < |ids| ensures ids[m] in table && ids[n] in table && Under(table, ids[n], ids[m]) {
      if m < |w.ids| <= n {
        assert ids[n] == page.ids[n - |w.ids|];
        assert Past(table[ids[n]].createdAt, ids[n], w.cursor);
        if m < |w.ids| - 1 { assert Under(table, w.ids[|w.ids| - 1], w.ids[m]); }
      } else if |w.ids| <= m {
        assert ids[m] == page.ids[m - |w.ids|] && ids[n] == page.ids[n - |w.ids|];
      }
    }
  }

  lemma {:induction false} WalkCollects(tables: seq<Invitations>, filter: Filter, limits: seq<nat>, n: nat)
    requires 1 <= n <= |tables| && n <= |limits| && ValidLimits(limits) && Successive(tables)
    ensures Collected(WalkTo(tables, filter, limits, n), tables[n - 1])
  {
    hide PageOf, Collected, InvitationsEvolve;
    if n == 1 {
      NothingCollected(tables[0]);
      CollectPage(Walk([], None, false), tables[0], filter, limits[0]);
    } else {
      WalkCollects(tables, filter, limits, n - 1);
      var w := WalkTo(tables, filter, limits, n - 1);
      CollectedLater(w, tables[n - 2], tables[n - 1]);
      if !w.finished { CollectPage(w, tables[n - 1], filter, limits[n - 1]); }
    }
  }

  lemma NothingCollected(table: Invitations)
    ensures Collected(Walk([], None, false), table)
  {
  }

  /** A walk over a changing table returns rows in strictly descending order of creation and id, none twice. */
  lemma WalkDescends(tables: seq<Invitations>, filter: Filter, limits: seq<nat>, n: nat)
    requires 1 <= n <= |tables| && n <= |limits| && ValidLimits(limits) && Successive(tables)
    ensures var ids := WalkTo(tables, filter, limits, n).ids;
      && (forall m | 0 <= m < |ids| :: ids[m] in tables[n - 1])
      && (forall l, m | 0 <= l < m < |ids| :: ids[l] != ids[m] && Under(tables[n - 1], ids[m], ids[l]))
  {
    hide WalkTo, InvitationsEvolve;
    WalkCollects(tables, filter, limits, n);
  }

  ghost predicate WantedThroughout(tables: seq<Invitations>, filter: Filter, n: nat, i: Uuid)
    requires n <= |tables|
  {
    forall m | 0 <= m < n ::
      i in tables[m] && tables[m][i].organization == filter.organization &&
      (filter.state.Some? ==> tables[m][i].state == filter.state.value) &&
      (filter.email.Some? ==> tables[m][i].emailNormalized == filter.email.value)
  }

  /** A row that is wanted throughout is collected, or still lies past the cursor. */
  lemma {:induction false} NothingIsSkipped(tables: seq<Invitations>, filter: Filter, limits: seq<nat>, n: nat, i: Uuid)
    requires 1 <= n <= |tables| && n <= |limits| && ValidLimits(limits) && Successive(tables)
    requires WantedThroughout(tables, filter, n, i)
    ensures var w := WalkTo(tables, filter, limits, n);
      i in w.ids || (!w.finished && w.cursor.Some? && Below(tables[n - 1][i].createdAt, i, w.cursor.value))
  {
    hide PageOf, InvitationsEvolve, Newest;
    if n == 1 {
      PageLeavesPast(tables[0], filter, None, limits[0], i);
    } else {
      NothingIsSkipped(tables, filter, limits, n - 1, i);
      var w := WalkTo(tables, filter, limits, n - 1);
      SameCreation(tables[n - 2], tables[n - 1], i);
      if !w.finished && i !in w.ids {
        PageLeavesPast(tables[n - 1], filter, w.cursor, limits[n - 1], i);
      }
    }
  }

  lemma SameCreation(table: Invitations, later: Invitations, i: Uuid)
    requires InvitationsEvolve(table, later) && i in table
    ensures i in later && later[i].createdAt == table[i].createdAt
  {
    assert RowEvolves(table[i], later[i]);
  }

  /** A finished walk returns every row that was present and matched the filter throughout, exactly once. */
  lemma FinishedWalkIsComplete(tables: seq<Invitations>, filter: Filter, limits: seq<nat>, n: nat, i: Uuid)
    requires 1 <= n <= |tables| && n <= |limits| && ValidLimits(limits) && Successive(tables)
    requires WalkTo(tables, filter, limits, n).finished && WantedThroughout(tables, filter, n, i)
    ensures var ids := WalkTo(tables, filter, limits, n).ids;
      exists m :: 0 <= m < |ids| && ids[m] == i && forall l | 0 <= l < |ids| && ids[l] == i :: l == m
  {
    hide WalkTo, InvitationsEvolve, Under;
    NothingIsSkipped(tables, filter, limits, n, i);
    WalkDescends(tables, filter, limits, n);
    var ids := WalkTo(tables, filter, limits, n).ids;
    var m :| 0 <= m < |ids| && ids[m] == i;
  }

  /** Whatever a walk has returned was, when its page was read, a row of the organization with the state and the
      address asked for; and it is one of that organization ever after. */
  lemma {:induction false} WalkStaysInScope(tables: seq<Invitations>, filter: Filter, limits: seq<nat>, n: nat, i: Uuid)
    requires n <= |tables| && n <= |limits| && ValidLimits(limits) && Successive(tables)
    requires i in WalkTo(tables, filter, limits, n).ids
    ensures exists m :: 0 <= m < n && i in tables[m] && tables[m][i].organization == filter.organization &&
                        (filter.state.Some? ==> tables[m][i].state == filter.state.value) &&
                        (filter.email.Some? ==> tables[m][i].emailNormalized == filter.email.value)
    ensures i in tables[n - 1] && tables[n - 1][i].organization == filter.organization
  {
    hide PageOf, InvitationsEvolve, Newest;
    var w := WalkTo(tables, filter, limits, n - 1);
    var page := PageOf(tables[n - 1], filter, w.cursor, limits[n - 1]);
    if !w.finished { PageTakesNewest(tables[n - 1], filter, w.cursor, limits[n - 1]); }
    if i in w.ids {
      WalkStaysInScope(tables, filter, limits, n - 1, i);
      SameOrganization(tables[n - 2], tables[n - 1], i);
    } else {
      assert i in page.ids;
      assert i in tables[n - 1] && Wanted(tables[n - 1][i], filter);
    }
  }

  lemma SameOrganization(table: Invitations, later: Invitations, i: Uuid)
    requires InvitationsEvolve(table, later) && i in table
    ensures i in later && later[i].organization == table[i].organization
  {
    assert RowEvolves(table[i], later[i]);
  }

  // ------------------------------------------------------------- static tables

  function Sum(limits: seq<nat>, n: nat): nat
    requires n <= |limits|
  {
    if n == 0 then 0 else Sum(limits, n - 1) + limits[n - 1]
  }

  /** Behind its `k`-th row a listing lists what the query selects past that row. */
  lemma TailRows(table: Invitations, filter: Filter, ids: seq<Uuid>, k: nat, i: Uuid)
    requires ListsDown(Rows(table, filter, None), ids) && 1 <= k <= |ids| && ids[k - 1] in table
    ensures i in Rows(table, filter, Some(CursorOf(table, ids[k - 1]))) <==> i in ids[k..]
  {
    hide Wanted;
    var keys := Rows(table, filter, None);
    assert ids == ids[..k] + ids[k..];
    forall q | 0 <= q < k ensures ids[q] in keys && !Below(keys[ids[q]], ids[q], CursorOf(table, ids[k - 1])) {
      if q < k - 1 { assert Before(keys, ids[k - 1], ids[q]); }
    }
    forall q | k <= q < |ids| ensures ids[q] in keys && Below(keys[ids[q]], ids[q], CursorOf(table, ids[k - 1])) {
      assert Before(keys, ids[q], ids[k - 1]);
    }
    if i in ids[k..] {
      var n :| 0 <= n < |ids[k..]| && ids[k..][n] == i;
      assert ids[k + n] == i;
    }
    if i in Rows(table, filter, Some(CursorOf(table, ids[k - 1]))) {
      assert i in keys && i in ids && i !in ids[..k];
    }
  }

  lemma TailLists(table: Invitations, filter: Filter, ids: seq<Uuid>, k: nat)
    requires ListsDown(Rows(table, filter, None), ids) && 1 <= k <= |ids| && ids[k - 1] in table
    ensures ListsDown(Rows(table, filter, Some(CursorOf(table, ids[k - 1]))), ids[k..])
  {
    hide Wanted, Past;
    var keys := Rows(table, filter, None);
    var rest := Rows(table, filter, Some(CursorOf(table, ids[k - 1])));
    forall i ensures i in rest <==> i in ids[k..] {
      TailRows(table, filter, ids, k, i);
    }
    forall m, n | 0 <= m < n < |ids[k..]|
      ensures ids[k..][m] in rest && ids[k..][n] in rest && ids[k..][m] != ids[k..][n]
      ensures Before(rest, ids[k..][n], ids[k..][m])
    {
      assert ids[k..][m] in ids[k..] && ids[k..][n] in ids[k..];
      assert Before(keys, ids[k + n], ids[k + m]);
    }
  }

  lemma RestOfListing(table: Invitations, filter: Filter, k: nat)
    requires var ids := Newest(Rows(table, filter, None)); 1 <= k <= |ids| && ids[k - 1] in table
    ensures var ids := Newest(Rows(table, filter, None));
      Newest(Rows(table, filter, Some(CursorOf(table, ids[k - 1])))) == ids[k..]
  {
    hide Newest, Rows, ListsDown;
    var ids := Newest(Rows(table, filter, None));
    var rest := Rows(table, filter, Some(CursorOf(table, ids[k - 1])));
    NewestListsDown(Rows(table, filter, None));
    NewestListsDown(rest);
    TailLists(table, filter, ids, k);
    ListingIsUnique(rest, Newest(rest), ids[k..]);
  }

  /** How much of the listing the first `n` pages return, and whether they end it. */
  ghost predicate Reached(table: Invitations, filter: Filter, w: Walk, sum: nat) {
    var all := Newest(Rows(table, filter, None));
    && w.ids == all[..Min(sum, |all|)]
    && (w.finished <==> sum >= |all|)
    && (w.finished ==> w.cursor.None?)
    && (!w.finished ==> 1 <= sum < |all| && all[sum - 1] in table && w.cursor == Some(CursorOf(table, all[sum - 1])))
  }

  lemma FirstPage(table: Invitations, filter: Filter, limit: nat)
    requires 1 <= limit
    ensures var page := PageOf(table, filter, None, limit);
      Reached(table, filter, Walk(page.ids, page.next, page.next.None?), limit)
  {
    hide Newest, Rows;
    NewestAreRows(table, filter, None);
  }

  lemma NextPage(table: Invitations, filter: Filter, w: Walk, sum: nat, limit: nat)
    requires Reached(table, filter, w, sum) && !w.finished && 1 <= limit
    ensures var page := PageOf(table, filter, w.cursor, limit);
      Reached(table, filter, Walk(w.ids + page.ids, page.next, page.next.None?), sum + limit)
  {
    hide Newest, Rows;
    RestOfListing(table, filter, sum);
    NewestAreRows(table, filter, None);
    NewestAreRows(table, filter, w.cursor);
  }

  /** On a table that stands still the walk returns the sorted filtered list: after `n` pages as much of it as
      the limits add up to, and it is finished exactly when that is all of it. */
  lemma {:induction false} StaticWalk(table: Invitations, filter: Filter, limits: seq<nat>, n: nat)
    requires 1 <= n <= |limits| && ValidLimits(limits)
    ensures var w := WalkTo(seq(|limits|, _ => table), filter, limits, n);
      var all := Newest(Rows(table, filter, None));
      && w.ids == all[..Min(Sum(limits, n), |all|)]
      && (w.finished <==> Sum(limits, n) >= |all|)
      && Reached(table, filter, w, Sum(limits, n))
  {
    hide Newest, Rows, PageOf;
    if n == 1 {
      FirstPage(table, filter, limits[0]);
    } else {
      StaticWalk(table, filter, limits, n - 1);
      var w := WalkTo(seq(|limits|, _ => table), filter, limits, n - 1);
      if !w.finished { NextPage(table, filter, w, Sum(limits, n - 1), limits[n - 1]); }
    }
  }

  lemma {:induction false} SumGrows(limits: seq<nat>, n: nat)
    requires n <= |limits| && ValidLimits(limits)
    ensures n <= Sum(limits, n)
  {
    if n > 0 { SumGrows(limits, n - 1); }
  }

  /** So such a walk ends, after at most as many pages as there are rows (one, if there are none), with the whole
      list. */
  lemma StaticWalkEnds(table: Invitations, filter: Filter, limits: seq<nat>, n: nat)
    requires 1 <= n <= |limits| && ValidLimits(limits) && n >= |Rows(table, filter, None)|
    ensures WalkTo(seq(|limits|, _ => table), filter, limits, n) == Walk(Newest(Rows(table, filter, None)), None, true)
  {
    hide WalkTo, Newest, Rows;
    NewestListsDown(Rows(table, filter, None));
    StaticWalk(table, filter, limits, n);
    SumGrows(limits, n);
  }

  /** On a table that stands still the walk is over after as many pages as rows are asked for, if not before. Then it
      has returned exactly the rows of the organization with the state and the address asked for, newest first. */
  lemma StaticWalkReturns(table: Invitations, filter: Filter, limits: seq<nat>, n: nat)
    requires 1 <= n <= |limits| && ValidLimits(limits)
    ensures var w := WalkTo(seq(|limits|, _ => table), filter, limits, n);
      var wanted := set i | i in table && table[i].organization == filter.organization &&
                            (filter.state.Some? ==> table[i].state == filter.state.value) &&
                            (filter.email.Some? ==> table[i].emailNormalized == filter.email.value);
      && (n >= |wanted| ==> w.finished)
      && (w.finished ==>
            && |w.ids| == |wanted| && (forall i :: i in wanted <==> i in w.ids)
            && (forall l, m | 0 <= l < m < |w.ids| ::
                  && w.ids[l] in table && w.ids[m] in table
                  && (table[w.ids[m]].createdAt < table[w.ids[l]].createdAt ||
                      (table[w.ids[m]].createdAt == table[w.ids[l]].createdAt && w.ids[m] < w.ids[l]))))
  {
    hide WalkTo, Newest;
    var rows := Rows(table, filter, None);
    assert rows.Keys == set i | i in table && table[i].organization == filter.organization &&
                                (filter.state.Some? ==> table[i].state == filter.state.value) &&
                                (filter.email.Some? ==> table[i].emailNormalized == filter.email.value);
    assert |rows| == |rows.Keys|;
    NewestListsDown(rows);
    StaticWalk(table, filter, limits, n);
    SumGrows(limits, n);
  }

  // ------------------------------------------------------- tables of a run

  /** Worlds visited one after another by a run. */
  ghost predicate Visits(worlds: seq<World>, segments: seq<seq<Step>>) {
    |worlds| == |segments| + 1 && WorldOk(worlds[0]) &&
    forall n | 0 <= n < |segments| :: CanRun(worlds[n], segments[n]) && worlds[n + 1] == Run(worlds[n], segments[n])
  }

  lemma {:induction false} VisitedEvolve(worlds: seq<World>, segments: seq<seq<Step>>, m: nat, n: nat)
    requires Visits(worlds, segments) && m <= n < |worlds|
    ensures WorldOk(worlds[m]) && WorldOk(worlds[n]) && Evolves(worlds[m].db, worlds[n].db)
    decreases n
  {
    hide WorldOk, Evolves, CanRun, Run;
    if m < n {
      VisitedEvolve(worlds, segments, m, n - 1);
      RunKeepsWorld(worlds[n - 1], segments[n - 1]);
      EvolvesTransitive(worlds[m].db, worlds[n - 1].db, worlds[n].db);
    } else {
      EvolvesReflexive(worlds[m].db);
      if n > 0 {
        VisitedEvolve(worlds, segments, n - 1, n - 1);
        RunKeepsWorld(worlds[n - 1], segments[n - 1]);
      }
    }
  }

  /** The tables the pages of a walk read, at any moments of any run, are successive. */
  lemma RunsAreSuccessive(worlds: seq<World>, segments: seq<seq<Step>>)
    requires Visits(worlds, segments)
    ensures Successive(seq(|worlds|, n requires 0 <= n < |worlds| => worlds[n].db.invitations))
  {
    hide Visits, InvitationsEvolve, CommandsEvolve, MutationsEvolve;
    forall m, n | 0 <= m <= n < |worlds| ensures InvitationsEvolve(worlds[m].db.invitations, worlds[n].db.invitations) {
      VisitedEvolve(worlds, segments, m, n);
    }
  }
}
