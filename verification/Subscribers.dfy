/**
  The subscriber tables of the executor as an object: each method is one call of the
  source, proved to do to the tables what Readiness says, and the credit the executor
  advertises for a pair.
 */
module Subscribers {
  import opened Wrappers
  import opened BrokerTypes
  import opened Readiness
  import opened Int32

  // ---------------------------------------------------------------- the credit of a pair

  /** The free slots a stream offers for a pair: none unless it is connected and ready for it. */
  function Offer(st: Stream, km: KindVersion): nat {
    if st.registered && ReadyFor(st, km) && st.inflight < st.maxInflight then st.maxInflight - st.inflight else 0
  }

  ghost function FreeSlots(streams: seq<Stream>, km: KindVersion): nat {
    if streams == [] then 0 else FreeSlots(streams[..|streams| - 1], km) + Offer(streams[|streams| - 1], km)
  }

  /** There is free credit exactly when some connected, ready stream has room. */
  lemma {:induction false} CreditMeansRoom(streams: seq<Stream>, km: KindVersion)
    ensures FreeSlots(streams, km) > 0 <==> exists n :: 0 <= n < |streams| && Offer(streams[n], km) > 0
  {
    if streams != [] {
      var rest := streams[..|streams| - 1];
      CreditMeansRoom(rest, km);
      if n :| 0 <= n < |rest| && Offer(rest[n], km) > 0 { assert Offer(streams[n], km) > 0; }
      if n :| 0 <= n < |streams| && Offer(streams[n], km) > 0 {
        assert n < |rest| ==> Offer(rest[n], km) > 0;
      }
    }
  }

  /**
    In every run of connects, disconnects, flips early or late, dispatches and resolutions,
    free credit for a pair comes with presence for it, unless an RS- of the pair came late.
   */
  lemma CreditImpliesPresence(rs: seq<Registry>, ops: seq<Op>, i: nat, km: KindVersion)
    requires LooseRun(rs, ops) && i < |rs| && NoLateWithdrawal(rs, ops, i, km) && FreeSlots(rs[i].streams, km) > 0
    ensures HasSubscriber(rs[i], km)
  {
    CreditMeansRoom(rs[i].streams, km);
    LooseRunCovers(rs, ops, i, km);
    var n :| 0 <= n < |rs[i].streams| && Offer(rs[i].streams[n], km) > 0;
    FloorNonNegative(rs[i].streams[n], km);
    FloorBounds(rs[i].streams, km);
  }

  lemma {:induction false} OffersUpdate(streams: seq<Stream>, n: nat, st: Stream, km: KindVersion)
    requires n < |streams|
    ensures FreeSlots(streams[n := st], km) == FreeSlots(streams, km) - Offer(streams[n], km) + Offer(st, km)
  {
    var last := |streams| - 1;
    if n == last {
      assert streams[n := st][..last] == streams[..last];
    } else {
      OffersUpdate(streams[..last], n, st, km);
      assert streams[n := st][..last] == streams[..last][n := st];
    }
  }

  /** How an operation moves the free credit of a pair. */
  function Shift(r: Registry, op: Op, km: KindVersion): int
    requires Possible(r, op)
  {
    match op
    case Connect(kms, maxInflight) => if km !in kms then 0 else if maxInflight <= 0 then 1 else maxInflight
    case Disconnect(n) => 0 - Offer(r.streams[n], km)
    case Flip(n, x, ready) =>
      if x != km then 0 else if !ready then 0 - Offer(r.streams[n], km)
      else Offer(r.streams[n].(unready := r.streams[n].unready - {km}), km) - Offer(r.streams[n], km)
    case Charge(n) => if Offer(r.streams[n], km) > 0 then -1 else 0
    case Free(n) =>
      var st := r.streams[n];
      if st.registered && ReadyFor(st, km) && 0 < st.inflight <= st.maxInflight then 1 else 0
  }

  lemma FreeSlotsMove(r: Registry, op: Op, km: KindVersion)
    requires Possible(r, op)
    ensures FreeSlots(Apply(r, op).streams, km) == FreeSlots(r.streams, km) + Shift(r, op, km)
  {
    var r' := Apply(r, op);
    match op
    case Connect(_, _) => assert r'.streams[..|r'.streams| - 1] == r.streams;
    case Disconnect(n) => OffersUpdate(r.streams, n, r'.streams[n], km);
    case Flip(n, x, ready) => FlipOffers(r, n, x, ready, km);
    case Charge(n) => OffersUpdate(r.streams, n, r'.streams[n], km);
    case Free(n) =>
      OffersUpdate(r.streams, n, r'.streams[n], km);
      assert r'.streams == r.streams[n := r'.streams[n]];
  }

  lemma FlipOffers(r: Registry, n: nat, x: KindVersion, ready: bool, km: KindVersion)
    requires n < |r.streams|
    ensures FreeSlots(SetReadiness(r, n, x, ready).streams, km) == FreeSlots(r.streams, km) + Shift(r, Flip(n, x, ready), km)
  {
    var st' := SetReadiness(r, n, x, ready).streams[n];
    OffersUpdate(r.streams, n, st', km);
    assert SetReadiness(r, n, x, ready).streams == r.streams[n := st'];
  }

  // ---------------------------------------------------------------- parsing a subscription

  /** The pair at one position of a Subscribe: a missing or non-positive version means version 1. */
  function PairAt(kinds: seq<string>, versions: seq<int>, i: nat): KindVersion
    requires i < |kinds|
  {
    KindVersion(kinds[i], if i < |versions| && versions[i] > 0 then versions[i] else 1)
  }

  /** Exactly the listed pairs, in order, every version positive; no kinds at all is an error. */
  method ParseSubscription(kinds: seq<string>, versions: seq<int>) returns (r: Result<seq<KindVersion>, string>)
    ensures r.Err? <==> kinds == []
    ensures r.Ok? ==> |r.value| == |kinds| && forall i | 0 <= i < |kinds| :: r.value[i] == PairAt(kinds, versions, i)
    ensures r.Ok? ==> forall km | km in r.value :: km.version >= 1
  {
    if |kinds| == 0 { return Err("WorkStream: no kinds advertised"); }
    var kms := [];
    for i := 0 to |kinds|
      invariant |kms| == i
      invariant forall j | 0 <= j < i :: kms[j] == PairAt(kinds, versions, j)
    {
      var version := 1;
      if i < |versions| && versions[i] > 0 { version := versions[i]; }
      kms := kms + [KindVersion(kinds[i], version)];
    }
    r := Ok(kms);
  }

  /** The loop of addSubscriber: both counts rise, listing by listing. */
  method BumpPairs(subscribers: Counts, ready: Counts, kms: seq<KindVersion>) returns (subscribers': Counts, ready': Counts)
    ensures subscribers' == BumpAll(subscribers, kms) && ready' == BumpAll(ready, kms)
  {
    subscribers', ready' := subscribers, ready;
    for i := 0 to |kms|
      invariant subscribers' == BumpAll(subscribers, kms[..i]) && ready' == BumpAll(ready, kms[..i])
    {
      assert kms[..i + 1][..i] == kms[..i];
      subscribers', ready' := Bump(subscribers', kms[i]), Bump(ready', kms[i]);
    }
    assert kms[..|kms|] == kms;
  }

  /** The loop of removeSubscriber: a pair the stream had withdrawn is not dropped from the ready count again. */
  method DropPairs(subscribers: Counts, ready: Counts, kms: seq<KindVersion>, unready: set<KindVersion>)
    returns (subscribers': Counts, ready': Counts)
    ensures subscribers' == DropAll(subscribers, kms, {}) && ready' == DropAll(ready, kms, unready)
  {
    subscribers', ready' := subscribers, ready;
    for i := 0 to |kms|
      invariant subscribers' == DropAll(subscribers, kms[..i], {}) && ready' == DropAll(ready, kms[..i], unready)
    {
      assert kms[..i + 1][..i] == kms[..i];
      subscribers' := Drop(subscribers', kms[i]);
      if kms[i] !in unready { ready' := Drop(ready', kms[i]); }
    }
    assert kms[..|kms|] == kms;
  }

  class SubscriberTable {
    var subscribers: Counts
    var readySubscribers: Counts
    var streams: seq<Stream>

    constructor ()
      ensures View() == Empty()
    {
      subscribers, readySubscribers, streams := map[], map[], [];
    }

    ghost function View(): Registry
      reads this
    {
      Registry(subscribers, readySubscribers, streams)
    }

    method AddSubscriber(kms: seq<KindVersion>, maxInflight: int) returns (n: nat)
      modifies this
      ensures n == |old(streams)| && View() == Add(old(View()), kms, maxInflight)
      ensures old(Exact(View())) ==> Exact(View())
    {
      ghost var before := View();
      var ceiling := maxInflight;
      if ceiling <= 0 { ceiling := 1; }
      subscribers, readySubscribers := BumpPairs(subscribers, readySubscribers, kms);
      n := |streams|;
      streams := streams + [Stream(kms, {}, ceiling, 0, true)];
      if Exact(before) { AddKeeps(before, kms, maxInflight); }
    }

    method RemoveSubscriber(n: nat)
      requires n < |streams| && streams[n].registered
      modifies this
      ensures View() == Remove(old(View()), n)
      ensures old(Exact(View())) ==> Exact(View())
    {
      ghost var before := View();
      subscribers, readySubscribers := DropPairs(subscribers, readySubscribers, streams[n].kms, streams[n].unready);
      streams := streams[n := streams[n].(registered := false)];
      if Exact(before) { RemoveKeeps(before, n); }
    }

    /** Applies to any stream the caller still holds, removed or not, as the source does. */
    method SetStreamReadiness(n: nat, km: KindVersion, ready: bool)
      requires n < |streams|
      modifies this`readySubscribers, this`streams
      ensures View() == SetReadiness(old(View()), n, km, ready)
      ensures old(Exact(View()) && streams[n].registered) ==> Exact(View())
    {
      ghost var before := View();
      if km in streams[n].kms {
        var degraded := km in streams[n].unready;
        if ready && degraded {
          streams := streams[n := streams[n].(unready := streams[n].unready - {km})];
          readySubscribers := Bump(readySubscribers, km);
        } else if !ready && !degraded {
          streams := streams[n := streams[n].(unready := streams[n].unready + {km})];
          readySubscribers := Drop(readySubscribers, km);
        }
      }
      if Exact(before) && before.streams[n].registered { ReadinessKeeps(before, n, km, ready); }
    }

    /** Presence of a kind at any version; without phantom entries, being listed is enough. */
    method HasAnyWorkerForKind(kind: string) returns (any: bool)
      ensures any <==> kind in subscribers && exists v | v in subscribers[kind] :: subscribers[kind][v] > 0
      ensures NoPhantoms(subscribers) ==> (any <==> kind in subscribers)
    {
      if kind !in subscribers { return false; }
      var inner := subscribers[kind];
      var left := inner.Keys;
      while left != {}
        invariant left <= inner.Keys
        invariant forall v | v in inner && v !in left :: inner[v] <= 0
        decreases left
      {
        assert (forall v :: v !in left) ==> left == {};
        var v :| v in left;
        if inner[v] > 0 { return true; }
        left := left - {v};
      }
      return false;
    }

    /** creditForLocked: the free slots of the connected, ready streams, summed in int32. */
    method CreditFor(km: KindVersion) returns (c: int)
      ensures c == Wrap(FreeSlots(streams, km))
      ensures FreeSlots(streams, km) <= MAX_INT32 ==> c == FreeSlots(streams, km)
    {
      c := 0;
      for n := 0 to |streams|
        invariant c == Wrap(FreeSlots(streams[..n], km))
      {
        assert streams[..n + 1][..n] == streams[..n];
        WrapAdd(FreeSlots(streams[..n], km), Offer(streams[n], km));
        WrapAdd(Offer(streams[n], km), FreeSlots(streams[..n], km));
        if streams[n].registered && ReadyFor(streams[n], km) {
          var rem := streams[n].maxInflight - streams[n].inflight;
          if rem > 0 { c := Wrap(c + rem); }
        }
      }
      assert streams[..|streams|] == streams;
      WrapExact(FreeSlots(streams, km));
    }
  }
}
