/**
  The attribution batcher: events "task is running on worker" are coalesced by task id and
  written in batches. The store is compared with writing every event on its own.
 */
module Attribution {
  import opened Wrappers

  const FLUSH_MAX := 500

  datatype Event = Event(id: nat, shard: int, worker: string)

  /** One turn of the batcher's select. */
  datatype Turn = Received(event: Event) | Tick | Done

  /** The worker_id column by row, keyed by (id, shard) as the UPDATE addresses it; rows not held by the broker are not listed. */
  type Store = map<(nat, int), string>

  /** The UPDATE for one event: it touches the row only when it is there. */
  function Write(store: Store, e: Event): Store {
    if (e.id, e.shard) in store then store[(e.id, e.shard) := e.worker] else store
  }

  /** Writing events one at a time, in order. */
  function WriteAll(store: Store, events: seq<Event>): Store {
    if events == [] then store else Write(WriteAll(store, events[..|events| - 1]), events[|events| - 1])
  }

  /** Every event about a task names the same shard. */
  ghost predicate SameShards(events: seq<Event>) {
    forall i, j | 0 <= i < |events| && 0 <= j < |events| && events[i].id == events[j].id :: events[i].shard == events[j].shard
  }

  /** The latest event for an id. */
  function Latest(events: seq<Event>, id: nat): (e: Option<Event>)
    ensures e.Some? ==> e.value.id == id && e.value in events
    ensures e.None? ==> forall i | 0 <= i < |events| :: events[i].id != id
  {
    if events == [] then None
    else if events[|events| - 1].id == id then Some(events[|events| - 1])
    else Latest(events[..|events| - 1], id)
  }

  /** The batched UPDATE: a listed row takes its listed worker, every other row stays. */
  function WriteBatch(store: Store, pending: map<nat, Event>): Store {
    map row | row in store ::
      if row.0 in pending && pending[row.0].shard == row.1 then pending[row.0].worker else store[row]
  }

  /** pending holds the latest event of each id among some events. */
  ghost predicate Coalesces(pending: map<nat, Event>, events: seq<Event>) {
    forall id :: Latest(events, id) == if id in pending then Some(pending[id]) else None
  }

  /** The last worker written to a row, one event at a time. */
  lemma {:induction false} WriteAllKeys(store: Store, events: seq<Event>)
    ensures WriteAll(store, events).Keys == store.Keys
  {
    if events != [] { WriteAllKeys(store, events[..|events| - 1]); }
  }

  lemma {:induction false} WriteAllIsLatest(store: Store, events: seq<Event>, id: nat, shard: int)
    requires SameShards(events) && (id, shard) in store
    ensures (id, shard) in WriteAll(store, events)
    ensures var e := Latest(events, id);
            WriteAll(store, events)[(id, shard)] == if e.Some? && e.value.shard == shard then e.value.worker else store[(id, shard)]
  {
    if events != [] {
      var rest := events[..|events| - 1];
      assert forall i | 0 <= i < |rest| :: rest[i] == events[i];
      WriteAllKeys(store, rest);
      WriteAllIsLatest(store, rest, id, shard);
      var e := Latest(rest, id);
      if e.Some? {
        var i :| 0 <= i < |rest| && rest[i] == e.value;
        assert events[i] == e.value;
      }
    }
  }

  /** Coalescing is faithful: one batch does what the events do one at a time. */
  lemma BatchIsEventByEvent(store: Store, events: seq<Event>, pending: map<nat, Event>)
    requires SameShards(events) && Coalesces(pending, events)
    ensures WriteBatch(store, pending) == WriteAll(store, events)
  {
    WriteAllKeys(store, events);
    forall row | row in store ensures WriteBatch(store, pending)[row] == WriteAll(store, events)[row] {
      WriteAllIsLatest(store, events, row.0, row.1);
    }
  }

  /** And only then: if some id's events name two shards, there is a table on which the two differ. */
  lemma BatchDiffers(events: seq<Event>, pending: map<nat, Event>) returns (store: Store)
    requires !SameShards(events) && Coalesces(pending, events)
    ensures WriteBatch(store, pending) != WriteAll(store, events)
  {
    var i, j :| 0 <= i < |events| && 0 <= j < |events| && events[i].id == events[j].id && events[i].shard != events[j].shard;
    var id := events[i].id;
    assert Latest(events, id).Some?;
    var shard := if pending[id].shard == events[i].shard then events[j].shard else events[i].shard;
    var n := if pending[id].shard == events[i].shard then j else i;
    var w := Touched(events, id, shard, n);
    store := map[(id, shard) := w + "-"];
    WriteAllOneRow(events, id, shard, n, w + "-");
    assert |w + "-"| != |w|;
    assert WriteBatch(store, pending)[(id, shard)] == w + "-";
  }

  /** The worker the last event for a row names. */
  ghost function Touched(events: seq<Event>, id: nat, shard: int, n: nat): string
    requires n < |events| && events[n].id == id && events[n].shard == shard
    decreases |events|
  {
    var last := events[|events| - 1];
    if last.id == id && last.shard == shard then last.worker else Touched(events[..|events| - 1], id, shard, n)
  }

  lemma {:induction false} WriteAllOneRow(events: seq<Event>, id: nat, shard: int, n: nat, before: string)
    requires n < |events| && events[n].id == id && events[n].shard == shard
    ensures WriteAll(map[(id, shard) := before], events) == map[(id, shard) := Touched(events, id, shard, n)]
    decreases |events|
  {
    var rest, last := events[..|events| - 1], events[|events| - 1];
    var store: Store := map[(id, shard) := before];
    WriteAllKeys(store, rest);
    if !(last.id == id && last.shard == shard) {
      WriteAllOneRow(rest, id, shard, n, before);
    }
  }

  lemma {:induction false} WriteAllConcat(store: Store, a: seq<Event>, b: seq<Event>)
    ensures WriteAll(store, a + b) == WriteAll(WriteAll(store, a), b)
  {
    if b == [] {
      assert a + b == a;
    } else {
      WriteAllConcat(store, a, b[..|b| - 1]);
      assert (a + b)[..|a + b| - 1] == a + b[..|b| - 1];
    }
  }

  /** A flush brings the table up to every event received so far. */
  lemma FlushCatchesUp(start: Store, flushed: seq<Event>, window: seq<Event>, pending: map<nat, Event>)
    requires SameShards(flushed + window) && Coalesces(pending, window)
    ensures WriteBatch(WriteAll(start, flushed), pending) == WriteAll(start, flushed + window)
  {
    assert forall i | 0 <= i < |window| :: window[i] == (flushed + window)[|flushed| + i];
    BatchIsEventByEvent(WriteAll(start, flushed), window, pending);
    WriteAllConcat(start, flushed, window);
  }

  lemma NothingPending(events: seq<Event>, pending: map<nat, Event>)
    requires Coalesces(pending, events) && |pending| == 0
    ensures events == [] && pending == map[]
  {
    assert pending.Keys == {};
    assert events != [] ==> Latest(events, events[0].id).Some?;
  }

  /** One event more. */
  lemma ReceiveCoalesces(events: seq<Event>, pending: map<nat, Event>, e: Event)
    requires Coalesces(pending, events)
    ensures Coalesces(pending[e.id := e], events + [e])
  {
    assert (events + [e])[..|events|] == events;
  }

  /** The slices of a batch: each pending id once. */
  method ListIds(pending: map<nat, Event>) returns (ids: seq<nat>)
    ensures |ids| == |pending| && (forall id :: id in ids <==> id in pending)
    ensures forall i, j | 0 <= i < j < |ids| :: ids[i] != ids[j]
  {
    ids := [];
    var left := pending.Keys;
    while left != {}
      invariant left <= pending.Keys && |ids| + |left| == |pending|
      invariant forall id :: id in ids <==> id in pending && id !in left
      invariant forall i, j | 0 <= i < j < |ids| :: ids[i] != ids[j]
      decreases left
    {
      assert (forall id :: id !in left) ==> left == {};
      var id :| id in left;
      ids := ids + [id];
      left := left - {id};
    }
  }

  /**
    The batcher and the table it writes. start is the table when it began, flushed the
    events already written, window the ones received since.
   */
  class Batcher {
    var pending: map<nat, Event>
    var store: Store
    ghost var start: Store
    ghost var flushed: seq<Event>
    ghost var window: seq<Event>

    constructor (store: Store)
      ensures Valid() && pending == map[] && this.store == start == store && Seen() == []
    {
      this.store, start, pending, flushed, window := store, store, map[], [], [];
    }

    ghost function Seen(): seq<Event>
      reads this
    {
      flushed + window
    }

    /** The table holds the flushed events, and pending the latest of the others. */
    ghost predicate Tracks()
      reads this
    {
      Coalesces(pending, window) && (SameShards(Seen()) ==> store == WriteAll(start, flushed))
    }

    ghost predicate Valid()
      reads this
    {
      |pending| < FLUSH_MAX && Tracks()
    }

    /**
      Writes whatever is pending and leaves nothing: the table is then what writing every
      event received so far, one at a time, would have made it. The batch lists each id once.
     */
    method Flush() returns (ids: seq<nat>)
      requires Tracks()
      modifies this
      ensures Valid() && pending == map[] && start == old(start) && Seen() == old(Seen())
      ensures SameShards(Seen()) ==> store == WriteAll(start, Seen())
      ensures |ids| == |old(pending)| && (forall id :: id in ids <==> id in old(pending))
      ensures forall i, j | 0 <= i < j < |ids| :: ids[i] != ids[j]
    {
      if |pending| == 0 {
        NothingPending(window, pending);
        assert Seen() == flushed;
        return [];
      }
      ids := ListIds(pending);
      if SameShards(Seen()) { FlushCatchesUp(start, flushed, window, pending); }
      store := WriteBatch(store, pending);
      pending := map[];
      flushed, window := flushed + window, [];
      assert Seen() == flushed;
    }

    /** One event: the latest per id is kept, and a full window is flushed at once. */
    method Receive(e: Event) returns (ids: seq<nat>)
      requires Valid()
      modifies this
      ensures Valid() && start == old(start) && Seen() == old(Seen()) + [e]
      ensures |ids| <= FLUSH_MAX && forall i, j | 0 <= i < j < |ids| :: ids[i] != ids[j]
      ensures pending == map[] && SameShards(Seen()) ==> store == WriteAll(start, Seen())
    {
      ReceiveCoalesces(window, pending, e);
      assert flushed + (window + [e]) == Seen() + [e];
      if SameShards(Seen() + [e]) { Shorter(Seen(), e); }
      assert pending[e.id := e].Keys == pending.Keys + {e.id};
      pending := pending[e.id := e];
      window := window + [e];
      ids := [];
      if |pending| >= FLUSH_MAX { ids := Flush(); }
    }

    /** The batcher's loop over any interleaving of events and ticks, until its context is done. */
    method Run(turns: seq<Turn>) returns (batches: seq<seq<nat>>, n: nat)
      requires Valid() && pending == map[] && Seen() == []
      modifies this
      ensures Valid() && start == old(start) && n <= |turns| && Seen() == Events(turns[..n])
      ensures forall b | b in batches :: |b| <= FLUSH_MAX && forall i, j | 0 <= i < j < |b| :: b[i] != b[j]
      ensures n > 0 && !turns[n - 1].Received? ==> pending == map[]
      ensures pending == map[] && SameShards(Seen()) ==> store == WriteAll(start, Seen())
      ensures n < |turns| ==> n > 0 && turns[n - 1].Done?
    {
      batches, n := [], 0;
      while n < |turns| && !(n > 0 && turns[n - 1].Done?)
        invariant Valid() && start == old(start) && n <= |turns| && Seen() == Events(turns[..n])
        invariant forall b | b in batches :: |b| <= FLUSH_MAX && forall i, j | 0 <= i < j < |b| :: b[i] != b[j]
        invariant n > 0 && !turns[n - 1].Received? ==> pending == map[]
        invariant pending == map[] && SameShards(Seen()) ==> store == WriteAll(start, Seen())
      {
        assert turns[..n + 1][..n] == turns[..n];
        var b;
        if turns[n].Received? { b := Receive(turns[n].event); } else { b := Flush(); }
        batches := batches + [b];
        n := n + 1;
      }
    }
  }

  /** The events received along some turns. */
  function Events(turns: seq<Turn>): seq<Event> {
    if turns == [] then []
    else
      var rest := Events(turns[..|turns| - 1]);
      if turns[|turns| - 1].Received? then rest + [turns[|turns| - 1].event] else rest
  }

  lemma Shorter(events: seq<Event>, e: Event)
    requires SameShards(events + [e])
    ensures SameShards(events)
  {
    assert forall i | 0 <= i < |events| :: (events + [e])[i] == events[i];
  }
}
