/**
  Choosing a peer for a task reference, and gossiping presence and credit to all peers,
  over the published peer set. Map iteration order and the random draw are parameters.
 */
module Forwarding {
  import opened Wrappers
  import opened BrokerTypes
  import opened Int32
  import opened PeerHints
  import opened WeightedPick
  import Protocol

  datatype Frame = TaskRef(task: StageTask) | InterestFrame(interest: Input)

  /** A published peer: what it advertised, and the frames queued towards it. */
  datatype Route = Route(hint: Hint, out: seq<Frame>)

  ghost predicate Enumerates(order: seq<string>, peers: map<string, Route>) {
    && (forall id :: id in order <==> id in peers)
    && (forall i, j | 0 <= i < j < |order| :: order[i] != order[j])
  }

  predicate Full(route: Route) {
    |route.out| >= Protocol.ROUTE_SEND_BUF
  }

  function Sent(route: Route, fr: Frame): Route {
    if Full(route) then route else route.(out := route.out + [fr])
  }

  predicate ServingOnly(route: Route, km: KindVersion) {
    Credit(route.hint, km) <= 0 && km in route.hint.serves
  }

  /** The positive credits met along an enumeration. */
  ghost function Credits(order: seq<string>, peers: map<string, Route>, km: KindVersion): (cs: seq<int>)
    requires forall id | id in order :: id in peers
    ensures Positive(cs)
  {
    if order == [] then []
    else
      var rest := Credits(order[..|order| - 1], peers, km);
      var c := Credit(peers[order[|order| - 1]].hint, km);
      if c > 0 then rest + [c] else rest
  }

  /** Who those credits belong to. */
  ghost function Candidates(order: seq<string>, peers: map<string, Route>, km: KindVersion): (ids: seq<string>)
    requires forall id | id in order :: id in peers
    ensures |ids| == |Credits(order, peers, km)| && forall j | 0 <= j < |ids| :: ids[j] in peers && Credit(peers[ids[j]].hint, km) > 0
  {
    if order == [] then []
    else
      var rest := Candidates(order[..|order| - 1], peers, km);
      var id := order[|order| - 1];
      if Credit(peers[id].hint, km) > 0 then rest + [id] else rest
  }

  /** No credit to draw from, and nobody else serves the pair. */
  ghost predicate NoRoute(order: seq<string>, peers: map<string, Route>, km: KindVersion)
    requires forall id | id in order :: id in peers
  {
    Wrap(Sum(Credits(order, peers, km))) <= 0 && forall id | id in peers :: !ServingOnly(peers[id], km)
  }

  lemma SumAppend(credits: seq<int>, c: int)
    ensures Sum(credits + [c]) == Sum(credits) + c
  {
    PrefixOfSlice(credits + [c], |credits|, |credits|);
    assert (credits + [c])[..|credits|] == credits;
  }

  /** The pass over the peers: the candidates with their credit and its int32 total, and those that only serve. */
  method Collect(peers: map<string, Route>, km: KindVersion, order: seq<string>)
    returns (cands: seq<string>, credits: seq<int>, total: int, serving: seq<string>)
    requires Enumerates(order, peers)
    ensures credits == Credits(order, peers, km) && cands == Candidates(order, peers, km)
    ensures total == Wrap(Sum(credits)) && forall id :: id in serving <==> id in peers && ServingOnly(peers[id], km)
  {
    cands, credits, total, serving := [], [], 0, [];
    for i := 0 to |order|
      invariant credits == Credits(order[..i], peers, km) && cands == Candidates(order[..i], peers, km)
      invariant total == Wrap(Sum(credits))
      invariant forall id :: id in serving <==> id in order[..i] && ServingOnly(peers[id], km)
    {
      assert order[..i + 1][..i] == order[..i] && order[i] in peers;
      var c := Credit(peers[order[i]].hint, km);
      if c > 0 {
        SumAppend(credits, c);
        WrapAdd(Sum(credits), c);
        cands, credits, total := cands + [order[i]], credits + [c], Wrap(total + c);
      } else if km in peers[order[i]].hint.serves {
        serving := serving + [order[i]];
      }
    }
    assert order[..|order|] == order;
  }

  class PeerMesh {
    const selfID: string
    var peers: map<string, Route>
    var selfCredit: map<KindVersion, int>

    constructor (selfID: string)
      ensures this.selfID == selfID && peers == map[] && selfCredit == map[]
    {
      this.selfID := selfID;
      peers, selfCredit := map[], map[];
    }

    /**
      At most one peer gets the reference, appended to its queue with its hint less one; it
      has free credit or serves the pair, and free credit is preferred: then it is the
      candidate the draw falls on, when the free credit fits in int32. None is chosen when
      the free credit adds up to nothing in int32 and no other peer serves the pair, and
      otherwise only because a queue is full.
     */
    method PushTask(km: KindVersion, task: StageTask, order: seq<string>, draw: nat) returns (chosen: Option<string>)
      requires Enumerates(order, peers)
      modifies this`peers
      ensures chosen.Some? ==>
                var id := chosen.value;
                && id in old(peers) && !Full(old(peers)[id])
                && peers == old(peers)[id := Route(DecCredit(old(peers)[id].hint, km), old(peers)[id].out + [TaskRef(task)])]
                && (Credit(old(peers)[id].hint, km) > 0
                    || (km in old(peers)[id].hint.serves && Wrap(Sum(Credits(order, old(peers), km))) <= 0))
                && (old(peers)[id].hint.credit.Keys <= old(peers)[id].hint.serves ==> km in old(peers)[id].hint.serves)
      ensures chosen.None? ==> peers == old(peers)
      ensures NoRoute(order, old(peers), km) ==> chosen.None?
      ensures chosen.None? && (forall id | id in peers :: !Full(peers[id])) ==> NoRoute(order, peers, km)
      ensures var credits := Credits(order, old(peers), km);
              chosen.Some? && 0 < Sum(credits) <= MAX_INT32 ==>
                exists i: nat :: Selects(credits, draw % Sum(credits), i) && chosen.value == Candidates(order, old(peers), km)[i]
    {
      var cands, credits, total, serving := Collect(peers, km, order);
      var id;
      if total > 0 {
        var at, _ := Pick(credits, draw % total);
        id := cands[at];
        WrapExact(Sum(credits));
      } else if |serving| > 0 {
        id := serving[draw % |serving|];
      } else {
        return None;
      }
      if Full(peers[id]) { return None; }
      var route := peers[id];
      peers := peers[id := Route(DecCredit(route.hint, km), route.out + [TaskRef(task)])];
      return Some(id);
    }

    /** The cluster-aware half of the claim gate. */
    method AnyPeerServes(km: KindVersion, order: seq<string>) returns (any: bool)
      requires Enumerates(order, peers)
      ensures any <==> exists id | id in peers :: km in peers[id].hint.serves
    {
      for i := 0 to |order|
        invariant forall j | 0 <= j < i :: km !in peers[order[j]].hint.serves
      {
        assert order[i] in peers;
        if km in peers[order[i]].hint.serves { return true; }
      }
      forall id | id in peers ensures km !in peers[id].hint.serves {
        assert id in order;
      }
      return false;
    }

    /** Presence is recorded by membership, and every peer with room gets the same frame. */
    method AdvertiseCredit(km: KindVersion, credit: int, hasWorker: bool, order: seq<string>)
      requires Enumerates(order, peers)
      modifies this
      ensures selfCredit == if hasWorker then old(selfCredit)[km := credit] else old(selfCredit) - {km}
      ensures peers.Keys == old(peers).Keys
      ensures forall id | id in peers :: peers[id] == Sent(old(peers)[id], InterestFrame(Interest(km, credit, hasWorker)))
    {
      if hasWorker { selfCredit := selfCredit[km := credit]; } else { selfCredit := selfCredit - {km}; }
      var fr := InterestFrame(Interest(km, credit, hasWorker));
      for i := 0 to |order|
        invariant selfCredit == if hasWorker then old(selfCredit)[km := credit] else old(selfCredit) - {km}
        invariant peers.Keys == old(peers).Keys
        invariant forall j | 0 <= j < i :: peers[order[j]] == Sent(old(peers)[order[j]], fr)
        invariant forall j | i <= j < |order| :: peers[order[j]] == old(peers)[order[j]]
      {
        assert order[i] in peers;
        if !Full(peers[order[i]]) {
          peers := peers[order[i] := peers[order[i]].(out := peers[order[i]].out + [fr])];
        }
      }
      forall id | id in peers ensures peers[id] == Sent(old(peers)[id], fr) {
        assert id in order;
      }
    }
  }
}
