/** The paged room list: each page by itself, and whole scans while rooms come and go. */
module Paging {
  import opened Model

  /** The rooms that a player sees, each with the length of its JSON form. */
  type Rooms = map<Id, nat>

  datatype Page = Page(ids: seq<Id>, next: Option<Id>) | TooLarge

  predicate Ascending(ids: seq<Id>) {
    forall i, j :: 0 <= i < j < |ids| ==> ids[i] < ids[j]
  }

  predicate Beyond(cursor: Option<Id>, id: Id) {
    cursor.Some? ==> id > cursor.value
  }

  /** `ids` are the visible rooms after the cursor, in order. */
  ghost predicate Lists(rooms: Rooms, cursor: Option<Id>, ids: seq<Id>) {
    Ascending(ids) && forall id :: id in ids <==> id in rooms && Beyond(cursor, id)
  }

  function Lengths(rooms: Rooms, ids: seq<Id>): nat {
    if ids == [] then 0
    else
      var id := ids[|ids| - 1];
      Lengths(rooms, ids[..|ids| - 1]) + (if id in rooms then rooms[id] else 0) + (if |ids| > 1 then 1 else 0)
  }

  /** The length of the response: the frame, the rooms with commas, and the cursor, an identifier in quotes or null. */
  function Encoded(rooms: Rooms, ids: seq<Id>, next: Option<Id>): nat {
    31 + Lengths(rooms, ids) + 15 + (if next.Some? then 38 else 4) + 1
  }

  predicate PageFits(cfg: Config, rooms: Rooms, ids: seq<Id>, next: Option<Id>) {
    cfg.Fits(Encoded(rooms, ids, next))
  }

  /** The cursor that goes out with the first `n` of the rooms `all`. */
  function Cursor(all: seq<Id>, n: nat): Option<Id>
    requires n <= |all|
  {
    if n == |all| || n == 0 then None else Some(all[n - 1])
  }

  /** What one request returns of the rooms `all` it lists: as many as fit, at least one. */
  ghost predicate Fills(cfg: Config, rooms: Rooms, all: seq<Id>, page: Page) {
    if all != [] && !PageFits(cfg, rooms, all[..1], Cursor(all, 1)) then page == TooLarge
    else
      && page.Page?
      && |page.ids| <= |all| && page.ids == all[..|page.ids|]
      && (all != [] ==> page.ids != [])
      && page.next == Cursor(all, |page.ids|)
      && (page.ids != [] ==> PageFits(cfg, rooms, page.ids, page.next))
      && (|page.ids| < |all| ==> !PageFits(cfg, rooms, all[..|page.ids| + 1], Cursor(all, |page.ids| + 1)))
  }

  /** What one request returns. */
  ghost predicate Answers(cfg: Config, rooms: Rooms, cursor: Option<Id>, page: Page) {
    exists all :: Lists(rooms, cursor, all) && Fills(cfg, rooms, all, page)
  }

  // ---- one request

  /** The visible rooms after the cursor, sorted. */
  method List(rooms: Rooms, cursor: Option<Id>) returns (ids: seq<Id>)
    ensures Lists(rooms, cursor, ids)
  {
    ids := [];
    var todo := rooms.Keys;
    while todo != {}
      invariant todo <= rooms.Keys && Ascending(ids)
      invariant forall id :: id in ids <==> id in rooms && id !in todo && Beyond(cursor, id)
      decreases todo
    {
      var id :| id in todo;
      todo := todo - {id};
      if Beyond(cursor, id) { ids := Insert(ids, id); }
    }
  }

  function Insert(ids: seq<Id>, id: Id): (more: seq<Id>)
    requires Ascending(ids) && id !in ids
    ensures forall x :: x in more <==> x in ids || x == id
    ensures Ascending(more)
  {
    if ids == [] then [id]
    else if id < ids[0] then [id] + ids
    else
      var rest := Insert(ids[1..], id);
      HeadBelow(ids);
      Below(ids[0], rest);
      assert ids == [ids[0]] + ids[1..];
      [ids[0]] + rest
  }

  lemma HeadBelow(ids: seq<Id>)
    requires Ascending(ids) && ids != []
    ensures forall x :: x in ids[1..] ==> ids[0] < x
  {
  }

  lemma Below(id: Id, ids: seq<Id>)
    requires Ascending(ids) && forall x :: x in ids ==> id < x
    ensures Ascending([id] + ids)
  {
    assert forall k :: 0 <= k < |ids| ==> ids[k] in ids;
  }

  /** One page: rooms are added until the response would not fit. */
  method FillPage(cfg: Config, rooms: Rooms, cursor: Option<Id>) returns (page: Page)
    ensures Answers(cfg, rooms, cursor, page)
  {
    hide Encoded, Lists;
    var all := List(rooms, cursor);
    var data: seq<Id> := [];
    var next: Option<Id> := None;
    var i := 0;
    while i < |all|
      invariant i <= |all| && data == all[..i] && next == Cursor(all, i)
      invariant i > 0 ==> PageFits(cfg, rooms, data, next) && PageFits(cfg, rooms, all[..1], Cursor(all, 1))
    {
      var after := if i + 1 < |all| then Some(all[i]) else None;
      var more := data + [all[i]];
      assert more == all[..i + 1] && after == Cursor(all, i + 1);
      if !cfg.Fits(Encoded(rooms, more, after)) {
        page := if data == [] then TooLarge else Page(data, next);
        FillsHere(cfg, rooms, all, i, page);
        return;
      }
      data, next := more, after;
      i := i + 1;
    }
    assert all[..i] == all;
    page := Page(data, next);
    FillsHere(cfg, rooms, all, i, page);
  }

  /** The loop stops at the first room that does not fit. */
  lemma FillsHere(cfg: Config, rooms: Rooms, all: seq<Id>, i: nat, page: Page)
    requires i <= |all| && (i < |all| ==> !PageFits(cfg, rooms, all[..i + 1], Cursor(all, i + 1)))
    requires i > 0 ==> PageFits(cfg, rooms, all[..i], Cursor(all, i)) && PageFits(cfg, rooms, all[..1], Cursor(all, 1))
    requires page == if i == 0 && all != [] then TooLarge else Page(all[..i], Cursor(all, i))
    ensures Fills(cfg, rooms, all, page)
  {
    hide PageFits;
  }

  /** The rooms that player `p` is shown: those still open, and those it is in or may come back to. */
  function Visible(rooms: map<Id, Room>, p: Id, length: Room -> nat): Rooms {
    map id | id in rooms && (!rooms[id].started || p in rooms[id].active || rooms[id].Rejoin(p)) :: length(rooms[id])
  }

  /** `getRooms` by player `p`. */
  method GetRooms(cfg: Config, rooms: map<Id, Room>, p: Id, length: Room -> nat, cursor: Option<Id>)
    returns (page: Page)
    ensures Answers(cfg, Visible(rooms, p, length), cursor, page)
  {
    page := FillPage(cfg, Visible(rooms, p, length), cursor);
  }

  lemma ListsOnce(rooms: Rooms, cursor: Option<Id>, a: seq<Id>, b: seq<Id>)
    requires Lists(rooms, cursor, a) && Lists(rooms, cursor, b)
    ensures a == b
  {
    assert forall id :: id in a <==> id in b;
    SameAscending(a, b);
  }

  lemma InTail(a: seq<Id>, id: Id)
    requires Ascending(a) && a != []
    ensures id in a[1..] <==> id in a && id != a[0]
  {
    assert a == [a[0]] + a[1..];
  }

  lemma {:induction false} SameAscending(a: seq<Id>, b: seq<Id>)
    requires Ascending(a) && Ascending(b) && forall id :: id in a <==> id in b
    ensures a == b
  {
    if a == [] {
      assert forall i :: 0 <= i < |b| ==> b[i] in a;
    } else {
      assert a[0] in b && b != [];
      assert b[0] in a;
      assert a[0] == b[0];
      forall id ensures id in a[1..] <==> id in b[1..] {
        InTail(a, id);
        InTail(b, id);
      }
      SameAscending(a[1..], b[1..]);
    }
  }

  /** `response_too_large` comes exactly when the next visible room does not fit even alone. */
  lemma TooLargeExactly(cfg: Config, rooms: Rooms, cursor: Option<Id>, page: Page, all: seq<Id>)
    requires Answers(cfg, rooms, cursor, page) && Lists(rooms, cursor, all)
    ensures page.TooLarge? <==> all != [] && !PageFits(cfg, rooms, all[..1], Cursor(all, 1))
  {
    var x :| Lists(rooms, cursor, x) && Fills(cfg, rooms, x, page);
    ListsOnce(rooms, cursor, all, x);
  }

  // ---- scans

  /** A scan: request `k` goes out with the cursor of page `k - 1` and sees the rooms `seen[k]`. */
  ghost predicate IsScan(cfg: Config, seen: seq<Rooms>, pages: seq<Page>) {
    && |seen| == |pages|
    && (forall k :: 0 <= k < |pages| ==> pages[k].Page? && Answers(cfg, seen[k], CursorAt(pages, k), pages[k]))
    && (forall k :: 0 <= k < |pages| - 1 ==> pages[k].next.Some?)
  }

  function CursorAt(pages: seq<Page>, k: nat): Option<Id>
    requires k <= |pages|
  {
    if k == 0 || pages[k - 1].TooLarge? then None else pages[k - 1].next
  }

  function Collected(pages: seq<Page>): seq<Id> {
    if pages == [] then []
    else
      var n := |pages| - 1;
      Collected(pages[..n]) + if pages[n].Page? then pages[n].ids else []
  }

  /** What a page says about the rooms between its cursors. */
  lemma PageCovers(cfg: Config, rooms: Rooms, cursor: Option<Id>, page: Page)
    requires page.Page? && Answers(cfg, rooms, cursor, page)
    ensures Ascending(page.ids) && forall id :: id in page.ids ==> id in rooms && Beyond(cursor, id)
    ensures forall id :: id in rooms && Beyond(cursor, id) && (page.next.Some? ==> id <= page.next.value) ==> id in page.ids
    ensures page.next.Some? ==> page.next.value in page.ids && forall id :: id in page.ids ==> id <= page.next.value
  {
    hide PageFits, Lists;
    var all :| Lists(rooms, cursor, all) && Fills(cfg, rooms, all, page);
    PrefixCovers(rooms, cursor, all, |page.ids|);
  }

  lemma PrefixCovers(rooms: Rooms, cursor: Option<Id>, all: seq<Id>, n: nat)
    requires Lists(rooms, cursor, all) && n <= |all| && (all != [] ==> n > 0)
    ensures Ascending(all[..n]) && forall id :: id in all[..n] ==> id in rooms && Beyond(cursor, id)
    ensures var next := Cursor(all, n);
      && (forall id :: id in rooms && Beyond(cursor, id) && (next.Some? ==> id <= next.value) ==> id in all[..n])
      && (next.Some? ==> next.value in all[..n] && forall id :: id in all[..n] ==> id <= next.value)
  {
    forall id | id in all[..n] ensures id in all {}
    forall id | id in rooms && Beyond(cursor, id) && (Cursor(all, n).Some? ==> id <= Cursor(all, n).value) ensures id in all[..n] {
      assert id in all;
      var i :| 0 <= i < |all| && all[i] == id;
      if i < n { assert all[..n][i] == id; }
    }
  }

  /** Was the room visible to every request of the scan? */
  ghost predicate Always(seen: seq<Rooms>, id: Id) {
    forall k :: 0 <= k < |seen| ==> id in seen[k]
  }

  ghost predicate Ever(seen: seq<Rooms>, id: Id) {
    exists k :: 0 <= k < |seen| && id in seen[k]
  }

  /** `ids` are rooms up to the cursor, in order, with all those that were always visible among them. */
  ghost predicate Collects(seen: seq<Rooms>, ids: seq<Id>, cursor: Option<Id>) {
    && Ascending(ids)
    && (forall id :: id in ids ==> Ever(seen, id))
    && (cursor.Some? ==> forall id :: id in ids ==> id <= cursor.value)
    && (forall id: Id :: Always(seen, id) && !(cursor.Some? && id > cursor.value) ==> id in ids)
  }

  lemma FirstPage(cfg: Config, rooms: Rooms, page: Page)
    requires page.Page? && Answers(cfg, rooms, None, page)
    ensures Collects([rooms], page.ids, page.next)
  {
    hide Answers;
    PageCovers(cfg, rooms, None, page);
    forall id | id in page.ids ensures Ever([rooms], id) { assert id in [rooms][0]; }
    forall id: Id | Always([rooms], id) ensures id in rooms { assert id in [rooms][0]; }
  }

  lemma NextPage(cfg: Config, seen: seq<Rooms>, ids: seq<Id>, cursor: Id, rooms: Rooms, page: Page)
    requires Collects(seen, ids, Some(cursor)) && page.Page? && Answers(cfg, rooms, Some(cursor), page)
    ensures Collects(seen + [rooms], ids + page.ids, page.next)
  {
    hide Answers;
    PageCovers(cfg, rooms, Some(cursor), page);
    var all, more := seen + [rooms], ids + page.ids;
    forall id | id in more ensures Ever(all, id) {
      if id in ids {
        var k :| 0 <= k < |seen| && id in seen[k];
        assert id in all[k];
      } else {
        assert id in all[|seen|];
      }
    }
    forall id: Id | Always(all, id) && !(page.next.Some? && id > page.next.value) ensures id in more {
      assert id in all[|seen|];
      assert forall k :: 0 <= k < |seen| ==> seen[k] == all[k];
      assert Always(seen, id);
    }
    Appended(ids, page.ids, cursor);
  }

  lemma Appended(a: seq<Id>, b: seq<Id>, cursor: Id)
    requires Ascending(a) && Ascending(b) && (forall id :: id in a ==> id <= cursor) && forall id :: id in b ==> id > cursor
    ensures Ascending(a + b)
  {
    forall i, j | 0 <= i < j < |a + b| ensures (a + b)[i] < (a + b)[j] {
      if i < |a| <= j { assert a[i] in a && b[j - |a|] in b; }
    }
  }

  /**
   * Rooms may come and go between the pages of a scan: still no room is returned twice, the rooms come in order,
   * each was visible to some request, and every room that was visible all along up to the last cursor was returned.
   */
  lemma {:induction false} ScanIsSound(cfg: Config, seen: seq<Rooms>, pages: seq<Page>)
    requires IsScan(cfg, seen, pages) && pages != []
    ensures Collects(seen, Collected(pages), CursorAt(pages, |pages|))
  {
    hide Collects, Answers;
    var n := |pages| - 1;
    assert Answers(cfg, seen[n], CursorAt(pages, n), pages[n]);
    if n == 0 {
      assert Collected(pages[..0]) == [] && Collected(pages) == pages[0].ids && seen == [seen[0]];
      FirstPage(cfg, seen[0], pages[0]);
    } else {
      ShorterScan(cfg, seen, pages);
      ScanIsSound(cfg, seen[..n], pages[..n]);
      assert CursorAt(pages[..n], n) == CursorAt(pages, n) == pages[n - 1].next;
      NextPage(cfg, seen[..n], Collected(pages[..n]), pages[n - 1].next.value, seen[n], pages[n]);
      assert seen == seen[..n] + [seen[n]];
    }
  }

  lemma ShorterScan(cfg: Config, seen: seq<Rooms>, pages: seq<Page>)
    requires IsScan(cfg, seen, pages) && pages != []
    ensures IsScan(cfg, seen[..|pages| - 1], pages[..|pages| - 1])
  {
    var n := |pages| - 1;
    forall k | 0 <= k < n ensures pages[..n][k].Page? && Answers(cfg, seen[..n][k], CursorAt(pages[..n], k), pages[..n][k]) {
      assert CursorAt(pages[..n], k) == CursorAt(pages, k);
    }
  }

  /** A finished scan returned every room that was visible throughout, once. */
  lemma FinishedScanIsComplete(cfg: Config, seen: seq<Rooms>, pages: seq<Page>, id: Id)
    requires IsScan(cfg, seen, pages) && pages != [] && pages[|pages| - 1].next.None?
    requires forall k :: 0 <= k < |seen| ==> id in seen[k]
    ensures id in Collected(pages) && Ascending(Collected(pages))
  {
    ScanIsSound(cfg, seen, pages);
    assert Always(seen, id);
  }

  /** On a fixed set of rooms, a finished scan is exactly the sorted list of them. */
  lemma FixedScanIsTheList(cfg: Config, rooms: Rooms, seen: seq<Rooms>, pages: seq<Page>, all: seq<Id>)
    requires IsScan(cfg, seen, pages) && pages != [] && pages[|pages| - 1].next.None?
    requires forall k :: 0 <= k < |seen| ==> seen[k] == rooms
    requires Lists(rooms, None, all)
    ensures Collected(pages) == all
  {
    ScanIsSound(cfg, seen, pages);
    forall id ensures id in Collected(pages) <==> id in all {
      if id in Collected(pages) { assert Ever(seen, id); }
      if id in all { assert Always(seen, id); }
    }
    SameAscending(Collected(pages), all);
  }

  /** Does every room fit alone, with a cursor, as room creation makes sure? */
  predicate EachFits(cfg: Config, rooms: Rooms) {
    forall id | id in rooms :: PageFits(cfg, rooms, [id], Some(id))
  }

  lemma AloneFits(cfg: Config, rooms: Rooms, all: seq<Id>)
    requires EachFits(cfg, rooms) && all != [] && all[0] in rooms
    ensures PageFits(cfg, rooms, all[..1], Cursor(all, 1))
  {
    assert all[..1] == [all[0]];
    assert PageFits(cfg, rooms, [all[0]], Some(all[0]));
  }

  /** What is left of a fixed set of rooms after the cursor. */
  function Left(rooms: Rooms, cursor: Option<Id>): set<Id> {
    set id | id in rooms && Beyond(cursor, id)
  }

  /** The rooms up to the cursor, or all of them once there is none. */
  ghost predicate Gathered(rooms: Rooms, ids: seq<Id>, cursor: Option<Id>, more: bool) {
    Ascending(ids) && forall id :: id in ids <==> id in rooms && (more ==> !Beyond(cursor, id))
  }

  lemma HasHead(ids: seq<Id>)
    ensures ids == [] || ids[0] in ids
  {
  }

  lemma GatherMore(cfg: Config, rooms: Rooms, ids: seq<Id>, cursor: Option<Id>, page: Page)
    requires Gathered(rooms, ids, cursor, true) && page.Page? && Answers(cfg, rooms, cursor, page)
    ensures Gathered(rooms, ids + page.ids, page.next, page.next.Some?)
    ensures page.next.Some? ==> Left(rooms, page.next) < Left(rooms, cursor)
  {
    hide Answers;
    PageCovers(cfg, rooms, cursor, page);
    if cursor.Some? {
      Appended(ids, page.ids, cursor.value);
    } else {
      HasHead(ids);
      assert ids + page.ids == page.ids;
    }
    if page.next.Some? {
      assert page.next.value in Left(rooms, cursor) && page.next.value !in Left(rooms, page.next);
    }
  }

  /** If every room fits alone no request fails, and what it returns fits. */
  lemma PageIsPage(cfg: Config, rooms: Rooms, cursor: Option<Id>, page: Page)
    requires EachFits(cfg, rooms) && Answers(cfg, rooms, cursor, page)
    ensures page.Page? && (page.ids != [] ==> PageFits(cfg, rooms, page.ids, page.next))
  {
    hide EachFits, PageFits;
    var all :| Lists(rooms, cursor, all) && Fills(cfg, rooms, all, page);
    if all != [] {
      assert all[0] in all;
      AloneFits(cfg, rooms, all);
    }
  }

  /** A client that follows the cursor on a fixed set of rooms ends, with all of them in order and every page within bounds. */
  method Scan(cfg: Config, rooms: Rooms) returns (ids: seq<Id>, pages: seq<Page>)
    requires EachFits(cfg, rooms)
    ensures Lists(rooms, None, ids) && Collected(pages) == ids
    ensures forall k :: 0 <= k < |pages| ==> pages[k].Page? && (pages[k].ids != [] ==> PageFits(cfg, rooms, pages[k].ids, pages[k].next))
  {
    hide EachFits, PageFits, Answers;
    ids, pages := [], [];
    var cursor: Option<Id> := None;
    var more := true;
    while more
      invariant Gathered(rooms, ids, cursor, more) && Collected(pages) == ids
      invariant forall k :: 0 <= k < |pages| ==> pages[k].Page? && (pages[k].ids != [] ==> PageFits(cfg, rooms, pages[k].ids, pages[k].next))
      decreases more, Left(rooms, cursor)
    {
      var page := FillPage(cfg, rooms, cursor);
      PageIsPage(cfg, rooms, cursor, page);
      GatherMore(cfg, rooms, ids, cursor, page);
      assert (pages + [page])[..|pages|] == pages;
      pages := pages + [page];
      ids := ids + page.ids;
      cursor := page.next;
      more := page.next.Some?;
    }
  }
}
