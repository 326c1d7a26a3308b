/**
  Paging through a resource's events: the keyset query, the handler that turns a cursor
  into a page and the next cursor, and the walk a client makes by following it.
 */
module EventPages {
  import opened Cursor

  datatype Event = Event(id: int, resource: nat, createdAt: Time, body: string)

  /** What the handler shows of an event: the sequence number stays inside the cursor. */
  datatype Item = Item(createdAt: Time, body: string)

  // ---------------------------------------------------------------- the query

  /** (created_at, id) < (created_at, id), lexicographically. */
  predicate Before(a: Event, b: Event) {
    a.createdAt < b.createdAt || (a.createdAt == b.createdAt && a.id < b.id)
  }

  predicate Selected(e: Event, resource: nat, at: Time, id: int) {
    e.resource == resource && (at == 0 || e.createdAt < at || (e.createdAt == at && e.id < id))
  }

  function Where(table: seq<Event>, resource: nat, at: Time, id: int): seq<Event> {
    if table == [] then []
    else if Selected(table[0], resource, at, id) then [table[0]] + Where(table[1..], resource, at, id)
    else Where(table[1..], resource, at, id)
  }

  function Insert(e: Event, sorted: seq<Event>): seq<Event> {
    if sorted == [] || Before(sorted[0], e) then [e] + sorted else [sorted[0]] + Insert(e, sorted[1..])
  }

  /** ORDER BY created_at DESC, id DESC. */
  function Newest(events: seq<Event>): seq<Event> {
    if events == [] then [] else Insert(events[0], Newest(events[1..]))
  }

  function Limit(events: seq<Event>, limit: nat): seq<Event> {
    if |events| <= limit then events else events[..limit]
  }

  /** What the API admits. */
  predicate Allowed(limit: int) {
    1 <= limit <= 500
  }

  /** The store replaces any other limit by 100. */
  function StoreLimit(limit: int): nat {
    if Allowed(limit) then limit else 100
  }

  function ListResourceEvents(table: seq<Event>, resource: nat, at: Time, id: int, limit: nat): seq<Event> {
    Limit(Newest(Where(table, resource, at, id)), limit)
  }

  /** The sequence number is the table's key. */
  ghost predicate DistinctIds(table: seq<Event>) {
    forall i, j | 0 <= i < j < |table| :: table[i].id != table[j].id
  }

  /** All events of a resource, newest first: what a walk should yield. */
  function AllEvents(table: seq<Event>, resource: nat): seq<Event> {
    Newest(Where(table, resource, 0, 0))
  }

  ghost predicate Descending(s: seq<Event>) {
    forall i, j | 0 <= i < j < |s| :: Before(s[j], s[i])
  }

  lemma {:induction false} InsertElements(e: Event, s: seq<Event>)
    ensures multiset(Insert(e, s)) == multiset(s) + multiset{e}
    ensures forall x :: x in Insert(e, s) <==> x in s || x == e
  {
    if s != [] && !Before(s[0], e) {
      InsertElements(e, s[1..]);
      assert s == [s[0]] + s[1..];
    } else {
      assert multiset([e] + s) == multiset{e} + multiset(s);
    }
  }

  lemma {:induction false} InsertDescends(e: Event, s: seq<Event>)
    requires Descending(s) && forall x | x in s :: x.id != e.id
    ensures Descending(Insert(e, s))
  {
    if s != [] {
      if Before(s[0], e) {
        assert forall i | 0 < i < |s| :: Before(s[i], s[0]);
      } else {
        InsertElements(e, s[1..]);
        InsertDescends(e, s[1..]);
        var r := Insert(e, s[1..]);
        assert s[0] in s;
        forall x | x in r ensures Before(x, s[0]) {
          if x != e {
            var j :| 0 <= j < |s[1..]| && s[1..][j] == x;
            assert Before(s[j + 1], s[0]);
          }
        }
      }
    }
  }

  lemma {:induction false} NewestSorts(events: seq<Event>)
    requires DistinctIds(events)
    ensures Descending(Newest(events)) && multiset(Newest(events)) == multiset(events)
  {
    if events != [] {
      NewestSorts(events[1..]);
      assert events == [events[0]] + events[1..];
      forall x | x in Newest(events[1..]) ensures x.id != events[0].id {
        assert x in multiset(Newest(events[1..])) && x in multiset(events[1..]);
        var j :| 0 <= j < |events[1..]| && events[1..][j] == x;
        assert events[j + 1] == x;
      }
      InsertElements(events[0], Newest(events[1..]));
      InsertDescends(events[0], Newest(events[1..]));
    }
  }

  lemma {:induction false} WhereKeeps(table: seq<Event>, resource: nat, at: Time, id: int)
    ensures forall e :: e in Where(table, resource, at, id) <==> e in table && Selected(e, resource, at, id)
    ensures DistinctIds(table) ==> DistinctIds(Where(table, resource, at, id))
  {
    if table != [] {
      WhereKeeps(table[1..], resource, at, id);
      assert table == [table[0]] + table[1..];
      if DistinctIds(table) {
        assert DistinctIds(table[1..]) by { assert forall i | 0 <= i < |table| - 1 :: table[1..][i] == table[i + 1]; }
        forall e | e in table[1..] ensures e.id != table[0].id {
          var j :| 0 <= j < |table[1..]| && table[1..][j] == e;
          assert table[j + 1] == e;
        }
      }
    }
  }

  /** Filtering a sorted list and inserting commute. */
  lemma {:induction false} WhereInsert(e: Event, s: seq<Event>, resource: nat, at: Time, id: int)
    requires Descending(s) && forall x | x in s :: x.id != e.id
    ensures Where(Insert(e, s), resource, at, id)
         == if Selected(e, resource, at, id) then Insert(e, Where(s, resource, at, id)) else Where(s, resource, at, id)
  {
    if s == [] || Before(s[0], e) {
      assert ([e] + s)[1..] == s;
      WhereKeeps(s, resource, at, id);
      var kept := Where(s, resource, at, id);
      if kept != [] {
        assert kept[0] in s;
        var j :| 0 <= j < |s| && s[j] == kept[0];
        assert j > 0 ==> Before(s[j], s[0]);
      }
    } else {
      WhereInsert(e, s[1..], resource, at, id);
      assert ([s[0]] + Insert(e, s[1..]))[1..] == Insert(e, s[1..]);
      assert s[0] in s;
      if Selected(s[0], resource, at, id) {
        assert ([s[0]] + Where(s[1..], resource, at, id))[1..] == Where(s[1..], resource, at, id);
      } else if Selected(e, resource, at, id) {
        assert e.resource == resource;
      }
    }
  }

  /** Filtering after sorting is sorting after filtering. */
  lemma {:induction false} WhereNewest(table: seq<Event>, resource: nat, at: Time, id: int)
    requires DistinctIds(table)
    ensures Where(Newest(table), resource, at, id) == Newest(Where(table, resource, at, id))
  {
    if table != [] {
      assert DistinctIds(table[1..]) by { assert forall i | 0 <= i < |table| - 1 :: table[1..][i] == table[i + 1]; }
      NewestSorts(table[1..]);
      forall x | x in Newest(table[1..]) ensures x.id != table[0].id {
        assert x in multiset(Newest(table[1..])) && x in multiset(table[1..]);
        var j :| 0 <= j < |table[1..]| && table[1..][j] == x;
        assert table[j + 1] == x;
      }
      WhereInsert(table[0], Newest(table[1..]), resource, at, id);
      WhereNewest(table[1..], resource, at, id);
    }
  }

  /** In a descending list of one resource, the rows past an entry are exactly the ones after it. */
  lemma {:induction false} WhereIsSuffix(s: seq<Event>, q: nat, resource: nat, last: Event)
    requires Descending(s) && q <= |s| && (forall e | e in s :: e.resource == resource) && last.createdAt != 0
    requires (forall i | 0 <= i < q :: s[i] == last || Before(last, s[i])) && (forall i | q <= i < |s| :: Before(s[i], last))
    ensures Where(s, resource, last.createdAt, last.id) == s[q..]
  {
    if s != [] {
      assert s[0] in s;
      assert forall i | 0 <= i < |s| - 1 :: s[1..][i] == s[i + 1];
      if q == 0 {
        WhereIsSuffix(s[1..], 0, resource, last);
        assert [s[0]] + s[1..] == s;
      } else {
        WhereIsSuffix(s[1..], q - 1, resource, last);
        assert s[1..][q - 1..] == s[q..];
      }
    }
  }

  lemma {:induction false} WhereTwice(table: seq<Event>, resource: nat, at: Time, id: int)
    ensures Where(Where(table, resource, 0, 0), resource, at, id) == Where(table, resource, at, id)
  {
    if table != [] {
      WhereTwice(table[1..], resource, at, id);
      if table[0].resource == resource {
        assert ([table[0]] + Where(table[1..], resource, 0, 0))[1..] == Where(table[1..], resource, 0, 0);
      }
    }
  }

  lemma SameMembers(a: seq<Event>, b: seq<Event>)
    requires multiset(a) == multiset(b)
    ensures forall e :: e in a <==> e in b
  {
    forall e ensures e in a <==> e in b { assert e in multiset(a) <==> e in multiset(b); }
  }

  /** The page after position q of the full listing is the next stretch of it, of at most limit events. */
  lemma NextPage(table: seq<Event>, resource: nat, q: nat, limit: nat)
    requires DistinctIds(table) && 0 < q <= |AllEvents(table, resource)| && AllEvents(table, resource)[q - 1].createdAt != 0
    ensures var all := AllEvents(table, resource);
            ListResourceEvents(table, resource, all[q - 1].createdAt, all[q - 1].id, limit) == Limit(all[q..], limit)
  {
    var mine := Where(table, resource, 0, 0);
    var all := AllEvents(table, resource);
    var last := all[q - 1];
    WhereKeeps(table, resource, 0, 0);
    NewestSorts(mine);
    WhereNewest(mine, resource, last.createdAt, last.id);
    WhereTwice(table, resource, last.createdAt, last.id);
    SameMembers(all, mine);
    WhereIsSuffix(all, q, resource, last);
  }

  // ---------------------------------------------------------------- the handler

  function Show(e: Event): Item {
    Item(e.createdAt, e.body)
  }

  function ShowAll(events: seq<Event>): seq<Item> {
    seq(|events|, i requires 0 <= i < |events| => Show(events[i]))
  }

  /** A full page hands out a cursor at its last event; a short one does not. */
  function NextCursor(f: Formats, page: seq<Event>, limit: int): string {
    if |page| == limit && |page| > 0 then EncodeCursor(f, page[|page| - 1].createdAt, f.formatInt(page[|page| - 1].id)) else ""
  }

  function PageOf(f: Formats, table: seq<Event>, resource: nat, cursor: string, limit: int): seq<Event> {
    var (at, id) := DecodeCursorInt(f, cursor);
    ListResourceEvents(table, resource, at, id, StoreLimit(limit))
  }

  method ListEvents(f: Formats, table: seq<Event>, resource: nat, cursor: string, limit: int)
    returns (items: seq<Item>, next: string)
    ensures items == ShowAll(PageOf(f, table, resource, cursor, limit))
    ensures next == NextCursor(f, PageOf(f, table, resource, cursor, limit), limit)
  {
    var (at, id) := DecodeCursorInt(f, cursor);
    var rows := ListResourceEvents(table, resource, at, id, StoreLimit(limit));
    items := [];
    for i := 0 to |rows|
      invariant |items| == i && forall j | 0 <= j < i :: items[j] == Show(rows[j])
    {
      items := items + [Item(rows[i].createdAt, rows[i].body)];
    }
    next := "";
    if |rows| == limit && |rows| > 0 {
      var last := rows[|rows| - 1];
      next := EncodeCursor(f, last.createdAt, f.formatInt(last.id));
    }
  }

  // ---------------------------------------------------------------- the walk

  /** A number of events that fills some number of pages. */
  predicate WholePages(n: nat, limit: nat)
    requires limit > 0
  {
    n == 0 || (n >= limit && WholePages(n - limit, limit))
  }

  /** No event at which a page can end, with events after it, carries the zero time. */
  ghost predicate NoZeroBoundary(all: seq<Event>, limit: nat, from: nat)
    requires limit > 0
  {
    forall b: nat | from < b < |all| && WholePages(b, limit) :: all[b - 1].createdAt != 0
  }

  /** The cursor a walk holds when it has come to position q. */
  ghost predicate CursorAt(f: Formats, all: seq<Event>, q: nat, cursor: string) {
    q <= |all| &&
    if q == 0 then cursor == ""
    else all[q - 1].createdAt != 0 && cursor == EncodeCursor(f, all[q - 1].createdAt, f.formatInt(all[q - 1].id))
  }

  /** The page a cursor stands for, given how far the walk has come. */
  lemma PageAt(f: Formats, table: seq<Event>, resource: nat, cursor: string, q: nat, limit: int)
    requires Sound(f) && DistinctIds(table) && CursorAt(f, AllEvents(table, resource), q, cursor)
    ensures PageOf(f, table, resource, cursor, limit) == Limit(AllEvents(table, resource)[q..], StoreLimit(limit))
  {
    var all := AllEvents(table, resource);
    if q == 0 {
      assert all[0..] == all;
      assert DecodeCursorInt(f, "") == (0, 0);
    } else {
      EventCursorRoundTrip(f, all[q - 1].createdAt, all[q - 1].id);
      NextPage(table, resource, q, StoreLimit(limit));
    }
  }

  lemma ShowConcat(a: seq<Event>, b: seq<Event>)
    ensures ShowAll(a) + ShowAll(b) == ShowAll(a + b)
  {
  }

  lemma {:induction false} NoEndBetween(q: nat, b: nat, limit: nat)
    requires limit > 0 && WholePages(q, limit) && WholePages(b, limit) && q < b
    ensures q + limit <= b
  {
    if q > 0 { NoEndBetween(q - limit, b - limit, limit); }
  }

  /** The page that starts at q, with the boundaries passed so far all non-zero. */
  ghost predicate AtPage(all: seq<Event>, limit: nat, q: nat)
    requires limit > 0
  {
    q <= |all| && WholePages(q, limit) && forall b: nat | 0 < b <= q && WholePages(b, limit) :: all[b - 1].createdAt != 0
  }

  /** A page that hands out no cursor is the last one, unless it is full, ends on the zero time, and events follow. */
  lemma WalkStops(f: Formats, all: seq<Event>, limit: nat, q: nat)
    requires Sound(f) && limit > 0 && AtPage(all, limit, q) && NextCursor(f, Limit(all[q..], limit), limit) == ""
    ensures var n := q + |Limit(all[q..], limit)|;
            n <= |all| && all[..q] + Limit(all[q..], limit) == all[..n] && (n == |all| <==> NoZeroBoundary(all, limit, 0))
  {
    var page := Limit(all[q..], limit);
    var n := q + |page|;
    assert all[..q] + page == all[..n];
    if |page| == limit {
      var last := page[|page| - 1];
      assert last == all[n - 1] && f.formatTime(last.createdAt) + "|" + f.formatInt(last.id) != "";
      assert last.createdAt == 0 && WholePages(n, limit);
    }
    forall b: nat | 0 < b < n && WholePages(b, limit) ensures all[b - 1].createdAt != 0 {
      if b > q { NoEndBetween(q, b, limit); }
    }
  }

  lemma ShownAtStop(f: Formats, all: seq<Event>, limit: nat, q: nat) returns (n: nat)
    requires Sound(f) && limit > 0 && AtPage(all, limit, q) && NextCursor(f, Limit(all[q..], limit), limit) == ""
    ensures n <= |all| && ShowAll(all[..q]) + ShowAll(Limit(all[q..], limit)) == ShowAll(all[..n])
    ensures ShowAll(all[..n]) == ShowAll(all) <==> NoZeroBoundary(all, limit, 0)
  {
    WalkStops(f, all, limit, q);
    n := q + |Limit(all[q..], limit)|;
    ShowConcat(all[..q], Limit(all[q..], limit));
    assert all[..|all|] == all;
    assert |ShowAll(all[..n])| == n && |ShowAll(all)| == |all|;
  }

  /** A page that hands out a cursor is full, and the next page starts at its end. */
  lemma WalkGoesOn(f: Formats, all: seq<Event>, limit: nat, q: nat)
    requires limit > 0 && AtPage(all, limit, q) && NextCursor(f, Limit(all[q..], limit), limit) != ""
    ensures q + limit <= |all| && AtPage(all, limit, q + limit)
    ensures CursorAt(f, all, q + limit, NextCursor(f, Limit(all[q..], limit), limit))
    ensures ShowAll(all[..q]) + ShowAll(Limit(all[q..], limit)) == ShowAll(all[..q + limit])
  {
    forall b: nat | 0 < b <= q + limit && WholePages(b, limit) ensures all[b - 1].createdAt != 0 {
      if b > q { NoEndBetween(q, b, limit); }
    }
    ShowConcat(all[..q], Limit(all[q..], limit));
    assert all[..q] + Limit(all[q..], limit) == all[..q + limit];
  }

  /** A walk has shown the first q events and holds the cursor for the rest. */
  ghost predicate Walking(f: Formats, all: seq<Event>, limit: nat, q: nat, cursor: string, items: seq<Item>)
    requires limit > 0
  {
    CursorAt(f, all, q, cursor) && AtPage(all, limit, q) && items == ShowAll(all[..q])
  }

  /** What a finished walk has shown: a prefix, and all of it exactly when no boundary carries the zero time. */
  ghost predicate Finished(all: seq<Event>, limit: nat, items: seq<Item>)
    requires limit > 0
  {
    items <= ShowAll(all) && (items == ShowAll(all) <==> NoZeroBoundary(all, limit, 0))
  }

  lemma TurnPage(f: Formats, table: seq<Event>, resource: nat, limit: nat, q: nat, cursor: string, items: seq<Item>)
    requires Sound(f) && DistinctIds(table) && Allowed(limit) && Walking(f, AllEvents(table, resource), limit, q, cursor, items)
    ensures var all := AllEvents(table, resource);
            var page := PageOf(f, table, resource, cursor, limit);
            var next := NextCursor(f, page, limit);
            if next == "" then Finished(all, limit, items + ShowAll(page))
            else q + limit <= |all| && Walking(f, all, limit, q + limit, next, items + ShowAll(page))
  {
    var all := AllEvents(table, resource);
    PageAt(f, table, resource, cursor, q, limit);
    if NextCursor(f, PageOf(f, table, resource, cursor, limit), limit) == "" {
      var n := ShownAtStop(f, all, limit, q);
      assert ShowAll(all[..n]) <= ShowAll(all);
    } else {
      WalkGoesOn(f, all, limit, q);
    }
  }

  /**
    Following the cursor from the first page ends, and yields a prefix of the resource's
    events, newest first, each once; it yields all of them exactly when no page boundary
    with events after it falls on the zero time. With a limit the API does not admit it
    yields the first 100: the clamped page is never as long as the limit asked for.
   */
  method Walk(f: Formats, table: seq<Event>, resource: nat, limit: int) returns (items: seq<Item>)
    requires Sound(f) && DistinctIds(table)
    ensures Allowed(limit) ==> Finished(AllEvents(table, resource), limit, items)
    ensures !Allowed(limit) ==> items == ShowAll(Limit(AllEvents(table, resource), 100))
  {
    ghost var q: nat := 0;
    var cursor := "";
    items := [];
    while true
      invariant Allowed(limit) ==> Walking(f, AllEvents(table, resource), limit, q, cursor, items)
      invariant !Allowed(limit) ==> q == 0 && cursor == "" && items == []
      decreases |AllEvents(table, resource)| - q
    {
      if Allowed(limit) {
        TurnPage(f, table, resource, limit, q, cursor, items);
      } else {
        PageAt(f, table, resource, cursor, 0, limit);
      }
      var page, next := ListEvents(f, table, resource, cursor, limit);
      items := items + page;
      if next == "" { return; }
      cursor, q := next, q + limit;
    }
  }

  /** With real timestamps the walk is complete: every event once, newest first, whatever the limit. */
  lemma WalkIsComplete(table: seq<Event>, resource: nat, limit: nat)
    requires DistinctIds(table) && Allowed(limit) && forall e | e in table :: e.createdAt != 0
    ensures var all := AllEvents(table, resource);
            && NoZeroBoundary(all, limit, 0) && Descending(all)
            && multiset(all) == multiset(Where(table, resource, 0, 0))
            && (forall e :: e in all <==> e in table && e.resource == resource)
  {
    var mine := Where(table, resource, 0, 0);
    WhereKeeps(table, resource, 0, 0);
    NewestSorts(mine);
    SameMembers(AllEvents(table, resource), mine);
  }

  /** Two events at the zero time, one per page: the walk would stop after the first. */
  lemma ZeroTimeCutsTheWalk(resource: nat)
    ensures var table := [Event(2, resource, 0, "b"), Event(1, resource, 0, "a")];
            DistinctIds(table) && |AllEvents(table, resource)| == 2 && !NoZeroBoundary(AllEvents(table, resource), 1, 0)
  {
    var b, a := Event(2, resource, 0, "b"), Event(1, resource, 0, "a");
    assert [b, a][1..] == [a] && Where([a], resource, 0, 0) == [a];
    assert Where([b, a], resource, 0, 0) == [b, a];
    assert Newest([a]) == [a];
    assert AllEvents([b, a], resource) == [b, a];
    assert WholePages(1, 1);
  }
}
