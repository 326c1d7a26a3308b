/**
  The presence and readiness counts behind the claim gate, compared with the streams they
  stand for. A stream is an entry of `streams`, numbered by its sequence number; it stays
  there after it is removed, because the source keeps a reference to it.
 */
module Readiness {
  import opened BrokerTypes

  /** kind -> version -> count, as the source nests it. */
  type Counts = map<string, map<int, int>>

  datatype Stream = Stream(kms: seq<KindVersion>, unready: set<KindVersion>, maxInflight: nat, inflight: int, registered: bool)

  datatype Registry = Registry(subscribers: Counts, ready: Counts, streams: seq<Stream>)

  // ---------------------------------------------------------------- nested counts

  function Count(m: Counts, km: KindVersion): int {
    if km.kind in m && km.version in m[km.kind] then m[km.kind][km.version] else 0
  }

  /** Every listed kind has a listed version, and every listed version a positive count. */
  ghost predicate NoPhantoms(m: Counts) {
    forall kind | kind in m :: (exists v :: v in m[kind]) && (forall v | v in m[kind] :: m[kind][v] > 0)
  }

  lemma SomeKey(inner: map<int, int>)
    requires |inner| > 0
    ensures exists v :: v in inner
  {
    assert (forall v :: v !in inner) ==> inner.Keys == {};
  }

  function Bump(m: Counts, km: KindVersion): (r: Counts)
    ensures forall x :: Count(r, x) == Count(m, x) + if x == km then 1 else 0
    ensures NoPhantoms(m) ==> NoPhantoms(r)
  {
    var inner := if km.kind in m then m[km.kind] else map[];
    var r := m[km.kind := inner[km.version := (if km.version in inner then inner[km.version] else 0) + 1]];
    assert km.version in r[km.kind];
    r
  }

  /** The version's count less one, and its entry gone once it is not positive. */
  function DropVersion(inner: map<int, int>, version: int): (kept: map<int, int>)
    ensures forall v :: v in kept <==> v in inner && (v != version || inner[v] > 1)
    ensures forall v | v in kept :: kept[v] == if v == version then inner[v] - 1 else inner[v]
  {
    var less := if version in inner && inner[version] > 0 then inner[version := inner[version] - 1] else inner;
    if version in less && less[version] <= 0 then less - {version} else less
  }

  function Drop(m: Counts, km: KindVersion): (r: Counts)
    ensures NoPhantoms(m) ==> NoPhantoms(r)
    ensures NoPhantoms(m) ==> forall x :: Count(r, x) == if x == km && Count(m, x) > 0 then Count(m, x) - 1 else Count(m, x)
  {
    if km.kind !in m then m
    else
      var kept := DropVersion(m[km.kind], km.version);
      if |kept| == 0 then m - {km.kind} else SomeKey(kept); m[km.kind := kept]
  }

  /** Counts without phantoms are determined by what they report. */
  lemma SameCounts(m: Counts, m': Counts)
    requires NoPhantoms(m) && NoPhantoms(m') && forall x :: Count(m, x) == Count(m', x)
    ensures m == m'
  {
    forall kind ensures kind in m <==> kind in m' {
      if kind in m { var v :| v in m[kind]; assert Count(m, KindVersion(kind, v)) == Count(m', KindVersion(kind, v)); }
      if kind in m' { var v :| v in m'[kind]; assert Count(m, KindVersion(kind, v)) == Count(m', KindVersion(kind, v)); }
    }
    forall kind | kind in m ensures m[kind] == m'[kind] {
      forall v ensures v in m[kind] <==> v in m'[kind] {
        assert Count(m, KindVersion(kind, v)) == Count(m', KindVersion(kind, v));
      }
      forall v | v in m[kind] ensures m[kind][v] == m'[kind][v] {
        assert Count(m, KindVersion(kind, v)) == Count(m', KindVersion(kind, v));
      }
    }
  }

  /** dropKindVerCount undoes bumpKindVerCount, map for map: no entry is left behind. */
  lemma DropUndoesBump(m: Counts, km: KindVersion)
    requires NoPhantoms(m)
    ensures Drop(Bump(m, km), km) == m
  {
    var b := Bump(m, km);
    forall x ensures Count(Drop(b, km), x) == Count(m, x) {
      assert Count(b, x) == Count(m, x) + if x == km then 1 else 0;
      CountNonNegative(m, x);
    }
    SameCounts(Drop(b, km), m);
  }

  lemma CountNonNegative(m: Counts, km: KindVersion)
    requires NoPhantoms(m)
    ensures Count(m, km) >= 0
  {
  }

  // ---------------------------------------------------------------- many pairs at once

  function BumpAll(m: Counts, kms: seq<KindVersion>): (r: Counts)
    ensures NoPhantoms(m) ==> NoPhantoms(r)
  {
    if kms == [] then m else Bump(BumpAll(m, kms[..|kms| - 1]), kms[|kms| - 1])
  }

  function DropAll(m: Counts, kms: seq<KindVersion>, except: set<KindVersion>): (r: Counts)
    ensures NoPhantoms(m) ==> NoPhantoms(r)
  {
    if kms == [] then m
    else
      var rest := DropAll(m, kms[..|kms| - 1], except);
      if kms[|kms| - 1] in except then rest else Drop(rest, kms[|kms| - 1])
  }

  /** How many times a stream lists a pair. */
  ghost function Times(kms: seq<KindVersion>, km: KindVersion): nat {
    if kms == [] then 0 else Times(kms[..|kms| - 1], km) + if kms[|kms| - 1] == km then 1 else 0
  }

  lemma {:induction false} TimesIn(kms: seq<KindVersion>, km: KindVersion)
    ensures Times(kms, km) > 0 <==> km in kms
  {
    if kms != [] {
      TimesIn(kms[..|kms| - 1], km);
      assert kms == kms[..|kms| - 1] + [kms[|kms| - 1]];
    }
  }

  lemma {:induction false} BumpAllCounts(m: Counts, kms: seq<KindVersion>, km: KindVersion)
    ensures Count(BumpAll(m, kms), km) == Count(m, km) + Times(kms, km)
  {
    if kms != [] { BumpAllCounts(m, kms[..|kms| - 1], km); }
  }

  lemma {:induction false} DropAllCounts(m: Counts, kms: seq<KindVersion>, except: set<KindVersion>, km: KindVersion)
    requires NoPhantoms(m)
    ensures Count(DropAll(m, kms, except), km)
         == if km in except then Count(m, km)
            else if Count(m, km) >= Times(kms, km) then Count(m, km) - Times(kms, km) else 0
  {
    CountNonNegative(m, km);
    if kms != [] { DropAllCounts(m, kms[..|kms| - 1], except, km); }
  }

  // ---------------------------------------------------------------- the operations

  predicate Serves(st: Stream, km: KindVersion) {
    km in st.kms
  }

  predicate ReadyFor(st: Stream, km: KindVersion) {
    km in st.kms && km !in st.unready
  }

  function Add(r: Registry, kms: seq<KindVersion>, maxInflight: int): Registry {
    Registry(BumpAll(r.subscribers, kms), BumpAll(r.ready, kms),
             r.streams + [Stream(kms, {}, if maxInflight <= 0 then 1 else maxInflight, 0, true)])
  }

  function Remove(r: Registry, n: nat): Registry
    requires n < |r.streams|
  {
    var st := r.streams[n];
    Registry(DropAll(r.subscribers, st.kms, {}), DropAll(r.ready, st.kms, st.unready),
             r.streams[n := st.(registered := false)])
  }

  function SetReadiness(r: Registry, n: nat, km: KindVersion, ready: bool): Registry
    requires n < |r.streams|
  {
    var st := r.streams[n];
    if !Serves(st, km) then r
    else if ready && km in st.unready then
      r.(ready := Bump(r.ready, km), streams := r.streams[n := st.(unready := st.unready - {km})])
    else if !ready && km !in st.unready then
      r.(ready := Drop(r.ready, km), streams := r.streams[n := st.(unready := st.unready + {km})])
    else r
  }

  predicate HasSubscriber(r: Registry, km: KindVersion) {
    Count(r.ready, km) > 0
  }

  // ---------------------------------------------------------------- what the counts stand for

  /** What a stream adds to the presence count of a pair. */
  ghost function Presence(st: Stream, km: KindVersion): int {
    if st.registered then Times(st.kms, km) else 0
  }

  /**
    What a stream adds to the ready count of a pair: one per listing while it is ready, one
    less after a single RS-, and what that left behind after it is removed.
   */
  ghost function Contribution(st: Stream, km: KindVersion): int {
    if st.registered then Times(st.kms, km) - (if km in st.unready then 1 else 0)
    else if km in st.unready then Times(st.kms, km) - 1 else 0
  }

  ghost function PresenceTotal(streams: seq<Stream>, km: KindVersion): int {
    if streams == [] then 0 else PresenceTotal(streams[..|streams| - 1], km) + Presence(streams[|streams| - 1], km)
  }

  ghost function ReadyTotal(streams: seq<Stream>, km: KindVersion): int {
    if streams == [] then 0 else ReadyTotal(streams[..|streams| - 1], km) + Contribution(streams[|streams| - 1], km)
  }

  ghost predicate UnreadyServed(st: Stream) {
    forall km | km in st.unready :: km in st.kms
  }

  ghost predicate Exact(r: Registry) {
    && NoPhantoms(r.subscribers) && NoPhantoms(r.ready)
    && (forall n | 0 <= n < |r.streams| :: UnreadyServed(r.streams[n]))
    && (forall km :: Count(r.subscribers, km) == PresenceTotal(r.streams, km))
    && (forall km :: Count(r.ready, km) == ReadyTotal(r.streams, km))
  }

  lemma {:induction false} TotalsUpdate(streams: seq<Stream>, n: nat, st: Stream, km: KindVersion)
    requires n < |streams|
    ensures PresenceTotal(streams[n := st], km) == PresenceTotal(streams, km) - Presence(streams[n], km) + Presence(st, km)
    ensures ReadyTotal(streams[n := st], km) == ReadyTotal(streams, km) - Contribution(streams[n], km) + Contribution(st, km)
  {
    var last := |streams| - 1;
    if n == last {
      assert streams[n := st][..last] == streams[..last];
    } else {
      TotalsUpdate(streams[..last], n, st, km);
      assert streams[n := st][..last] == streams[..last][n := st];
    }
  }

  lemma ContributionNonNegative(st: Stream, km: KindVersion)
    requires UnreadyServed(st)
    ensures Contribution(st, km) >= 0
    ensures Contribution(st, km) > 0 <==> (st.registered && ReadyFor(st, km)) || (km in st.unready && Times(st.kms, km) > 1)
  {
    TimesIn(st.kms, km);
  }

  lemma {:induction false} TotalBounds(streams: seq<Stream>, km: KindVersion)
    requires forall n | 0 <= n < |streams| :: UnreadyServed(streams[n])
    ensures ReadyTotal(streams, km) >= 0 && PresenceTotal(streams, km) >= 0
    ensures forall n | 0 <= n < |streams| :: Contribution(streams[n], km) <= ReadyTotal(streams, km)
    ensures forall n | 0 <= n < |streams| :: Presence(streams[n], km) <= PresenceTotal(streams, km)
    ensures ReadyTotal(streams, km) > 0 ==> exists n :: 0 <= n < |streams| && Contribution(streams[n], km) > 0
    ensures PresenceTotal(streams, km) > 0 ==> exists n :: 0 <= n < |streams| && Presence(streams[n], km) > 0
  {
    if streams != [] {
      var rest := streams[..|streams| - 1];
      TotalBounds(rest, km);
      ContributionNonNegative(streams[|streams| - 1], km);
      assert forall n | 0 <= n < |rest| :: rest[n] == streams[n];
      if ReadyTotal(rest, km) > 0 {
        var n :| 0 <= n < |rest| && Contribution(rest[n], km) > 0;
        assert Contribution(streams[n], km) > 0;
      }
      if PresenceTotal(rest, km) > 0 {
        var n :| 0 <= n < |rest| && Presence(rest[n], km) > 0;
        assert Presence(streams[n], km) > 0;
      }
    }
  }

  // ---------------------------------------------------------------- every operation keeps the counts exact

  lemma AddKeeps(r: Registry, kms: seq<KindVersion>, maxInflight: int)
    requires Exact(r)
    ensures Exact(Add(r, kms, maxInflight))
  {
    var r' := Add(r, kms, maxInflight);
    assert r'.streams[..|r'.streams| - 1] == r.streams;
    forall km ensures Count(r'.subscribers, km) == PresenceTotal(r'.streams, km) && Count(r'.ready, km) == ReadyTotal(r'.streams, km) {
      BumpAllCounts(r.subscribers, kms, km);
      BumpAllCounts(r.ready, kms, km);
    }
  }

  lemma RemoveKeeps(r: Registry, n: nat)
    requires Exact(r) && n < |r.streams| && r.streams[n].registered
    ensures Exact(Remove(r, n))
  {
    var r', st := Remove(r, n), r.streams[n];
    forall km ensures Count(r'.subscribers, km) == PresenceTotal(r'.streams, km) && Count(r'.ready, km) == ReadyTotal(r'.streams, km) {
      DropAllCounts(r.subscribers, st.kms, {}, km);
      DropAllCounts(r.ready, st.kms, st.unready, km);
      TotalsUpdate(r.streams, n, st.(registered := false), km);
      TotalBounds(r.streams, km);
    }
  }

  lemma ReadinessKeeps(r: Registry, n: nat, km: KindVersion, ready: bool)
    requires Exact(r) && n < |r.streams| && r.streams[n].registered
    ensures Exact(SetReadiness(r, n, km, ready))
  {
    var r', st := SetReadiness(r, n, km, ready), r.streams[n];
    forall x ensures Count(r'.subscribers, x) == PresenceTotal(r'.streams, x) && Count(r'.ready, x) == ReadyTotal(r'.streams, x) {
      TotalsUpdate(r.streams, n, r'.streams[n], x);
      TotalBounds(r.streams, x);
      TimesIn(st.kms, x);
      assert r'.streams == r.streams[n := r'.streams[n]];
    }
  }

  /** Counting tasks touches neither presence nor readiness. */
  lemma RecountKeeps(r: Registry, n: nat, delta: int)
    requires Exact(r) && n < |r.streams|
    ensures Exact(Recount(r, n, delta))
  {
    var r' := Recount(r, n, delta);
    forall km ensures Count(r'.subscribers, km) == PresenceTotal(r'.streams, km) && Count(r'.ready, km) == ReadyTotal(r'.streams, km) {
      TotalsUpdate(r.streams, n, r'.streams[n], km);
    }
  }

  // ---------------------------------------------------------------- runs

  /** Charge and Free are a stage dispatched to a stream and resolved again. */
  datatype Op =
    | Connect(kms: seq<KindVersion>, maxInflight: int) | Disconnect(n: nat) | Flip(n: nat, km: KindVersion, ready: bool)
    | Charge(n: nat) | Free(n: nat)

  /** What the code admits: a stream is removed once; flips, charges and frees may come at any time. */
  predicate Possible(r: Registry, op: Op) {
    op.Connect? || (op.n < |r.streams| && (op.Disconnect? ==> r.streams[op.n].registered))
  }

  /** What it is meant for: readiness flips while the stream is registered. */
  predicate Enabled(r: Registry, op: Op) {
    Possible(r, op) && (op.Flip? ==> r.streams[op.n].registered)
  }

  function Recount(r: Registry, n: nat, delta: int): Registry
    requires n < |r.streams|
  {
    r.(streams := r.streams[n := r.streams[n].(inflight := r.streams[n].inflight + delta)])
  }

  function Apply(r: Registry, op: Op): Registry
    requires Possible(r, op)
  {
    match op
    case Connect(kms, maxInflight) => Add(r, kms, maxInflight)
    case Disconnect(n) => Remove(r, n)
    case Flip(n, km, ready) => SetReadiness(r, n, km, ready)
    case Charge(n) => Recount(r, n, 1)
    case Free(n) => if r.streams[n].inflight > 0 then Recount(r, n, -1) else r
  }

  function Empty(): Registry {
    Registry(map[], map[], [])
  }

  ghost predicate Run(rs: seq<Registry>, ops: seq<Op>) {
    && |rs| == |ops| + 1 && rs[0] == Empty()
    && (forall i | 0 <= i < |ops| :: Applied(rs[i], ops[i], rs[i + 1]))
  }

  ghost predicate Applied(r: Registry, op: Op, r': Registry) {
    Enabled(r, op) && r' == Apply(r, op)
  }

  lemma {:induction false} RunExact(rs: seq<Registry>, ops: seq<Op>, i: nat)
    requires Run(rs, ops) && i < |rs|
    ensures Exact(rs[i])
  {
    if i > 0 {
      RunExact(rs, ops, i - 1);
      assert Applied(rs[i - 1], ops[i - 1], rs[i]);
      match ops[i - 1]
      case Connect(kms, maxInflight) => AddKeeps(rs[i - 1], kms, maxInflight);
      case Disconnect(n) => RemoveKeeps(rs[i - 1], n);
      case Flip(n, km, ready) => ReadinessKeeps(rs[i - 1], n, km, ready);
      case Charge(n) => RecountKeeps(rs[i - 1], n, 1);
      case Free(n) => RecountKeeps(rs[i - 1], n, -1);
    }
  }

  ghost predicate SomeReady(r: Registry, km: KindVersion) {
    exists n :: 0 <= n < |r.streams| && r.streams[n].registered && ReadyFor(r.streams[n], km)
  }

  /** A stream, connected or gone, that listed a pair more than once and then sent RS- for it. */
  ghost predicate SomeOvercounted(r: Registry, km: KindVersion) {
    exists n :: 0 <= n < |r.streams| && km in r.streams[n].unready && Times(r.streams[n].kms, km) > 1
  }

  /**
    The claim gate is open for a pair if and only if a connected stream is ready for it, or
    some stream listed the pair twice and then withdrew it. Without such a listing the gate
    is exact; with one it can stay open with no worker behind it.
   */
  lemma GateOpenExactlyWhen(rs: seq<Registry>, ops: seq<Op>, i: nat, km: KindVersion)
    requires Run(rs, ops) && i < |rs|
    ensures HasSubscriber(rs[i], km) <==> SomeReady(rs[i], km) || SomeOvercounted(rs[i], km)
  {
    RunExact(rs, ops, i);
    var r := rs[i];
    TotalBounds(r.streams, km);
    forall n | 0 <= n < |r.streams|
      ensures Contribution(r.streams[n], km) > 0 <==> (r.streams[n].registered && ReadyFor(r.streams[n], km))
                                                      || (km in r.streams[n].unready && Times(r.streams[n].kms, km) > 1)
    {
      ContributionNonNegative(r.streams[n], km);
    }
  }

  ghost predicate DistinctPairs(r: Registry) {
    forall n, km | 0 <= n < |r.streams| :: Times(r.streams[n].kms, km) <= 1
  }

  ghost function Serving(streams: seq<Stream>, km: KindVersion): set<int> {
    set n | 0 <= n < |streams| && streams[n].registered && Serves(streams[n], km)
  }

  ghost function Ready(streams: seq<Stream>, km: KindVersion): set<int> {
    set n | 0 <= n < |streams| && streams[n].registered && ReadyFor(streams[n], km)
  }

  lemma {:induction false} PresenceIsServing(streams: seq<Stream>, km: KindVersion)
    requires forall n | 0 <= n < |streams| :: Times(streams[n].kms, km) <= 1
    ensures PresenceTotal(streams, km) == |Serving(streams, km)|
  {
    if streams == [] {
      assert Serving(streams, km) == {};
    } else {
      var last := |streams| - 1;
      var rest, st := streams[..last], streams[last];
      PresenceIsServing(rest, km);
      TimesIn(st.kms, km);
      assert forall n | 0 <= n < last :: rest[n] == streams[n];
      if st.registered && Serves(st, km) {
        assert Serving(streams, km) == Serving(rest, km) + {last};
      } else {
        assert Serving(streams, km) == Serving(rest, km);
      }
    }
  }

  lemma {:induction false} ContributionIsReady(streams: seq<Stream>, km: KindVersion)
    requires forall n | 0 <= n < |streams| :: Times(streams[n].kms, km) <= 1 && UnreadyServed(streams[n])
    ensures ReadyTotal(streams, km) == |Ready(streams, km)|
  {
    if streams == [] {
      assert Ready(streams, km) == {};
    } else {
      var last := |streams| - 1;
      var rest, st := streams[..last], streams[last];
      ContributionIsReady(rest, km);
      ContributionNonNegative(st, km);
      assert Contribution(st, km) == if st.registered && ReadyFor(st, km) then 1 else 0;
      assert forall n | 0 <= n < last :: rest[n] == streams[n];
      if st.registered && ReadyFor(st, km) {
        assert Ready(streams, km) == Ready(rest, km) + {last};
      } else {
        assert Ready(streams, km) == Ready(rest, km);
      }
    }
  }

  /** When every stream lists distinct pairs, the counts are the numbers of serving and of ready streams. */
  lemma CountsAreStreams(rs: seq<Registry>, ops: seq<Op>, i: nat, km: KindVersion)
    requires Run(rs, ops) && i < |rs| && DistinctPairs(rs[i])
    ensures Count(rs[i].subscribers, km) == |Serving(rs[i].streams, km)|
    ensures Count(rs[i].ready, km) == |Ready(rs[i].streams, km)|
    ensures NoPhantoms(rs[i].subscribers) && NoPhantoms(rs[i].ready)
    ensures HasSubscriber(rs[i], km) <==> SomeReady(rs[i], km)
  {
    RunExact(rs, ops, i);
    PresenceIsServing(rs[i].streams, km);
    ContributionIsReady(rs[i].streams, km);
    GateOpenExactlyWhen(rs, ops, i, km);
  }

  /** The coarse presence signal, at any version, is exact over every run, listings repeated or not. */
  lemma PresenceIsExact(rs: seq<Registry>, ops: seq<Op>, i: nat, kind: string)
    requires Run(rs, ops) && i < |rs|
    ensures kind in rs[i].subscribers <==>
              exists n, v :: 0 <= n < |rs[i].streams| && rs[i].streams[n].registered && Serves(rs[i].streams[n], KindVersion(kind, v))
  {
    RunExact(rs, ops, i);
    var r := rs[i];
    if kind in r.subscribers {
      var v :| v in r.subscribers[kind];
      TotalBounds(r.streams, KindVersion(kind, v));
      var n :| 0 <= n < |r.streams| && Presence(r.streams[n], KindVersion(kind, v)) > 0;
      TimesIn(r.streams[n].kms, KindVersion(kind, v));
      assert Serves(r.streams[n], KindVersion(kind, v));
    }
    if n, v :| 0 <= n < |r.streams| && r.streams[n].registered && Serves(r.streams[n], KindVersion(kind, v)) {
      TimesIn(r.streams[n].kms, KindVersion(kind, v));
      TotalBounds(r.streams, KindVersion(kind, v));
      assert Presence(r.streams[n], KindVersion(kind, v)) > 0;
    }
  }

  // ---------------------------------------------------------------- where the gate is not exact

  /** Connect, withdraw one pair, disconnect. */
  ghost function ThereAndBack(r: Registry, kms: seq<KindVersion>, maxInflight: int, km: KindVersion): Registry {
    Remove(SetReadiness(Add(r, kms, maxInflight), |r.streams|, km, false), |r.streams|)
  }

  /** A stream that comes, withdraws a pair and goes restores the ready count exactly when it listed the pair at most once. */
  lemma ThereAndBackRestores(r: Registry, kms: seq<KindVersion>, maxInflight: int, km: KindVersion)
    requires NoPhantoms(r.ready)
    ensures Count(ThereAndBack(r, kms, maxInflight, km).ready, km) == Count(r.ready, km) <==> Times(kms, km) <= 1
  {
    var r1 := Add(r, kms, maxInflight);
    BumpAllCounts(r.ready, kms, km);
    CountNonNegative(r.ready, km);
    TimesIn(kms, km);
    var r2 := SetReadiness(r1, |r.streams|, km, false);
    DropAllCounts(r2.ready, kms, r2.streams[|r.streams|].unready, km);
  }

  lemma TwiceListed(km: KindVersion)
    ensures Times([km, km], km) == 2
  {
    assert [km, km][..1] == [km] && Times([km], km) == 1;
  }

  lemma StreamsThereAndBack(r: Registry, kms: seq<KindVersion>, km: KindVersion)
    requires r.streams == [] && km in kms
    ensures var r1 := Add(r, kms, 1);
            var r2 := SetReadiness(r1, 0, km, false);
            var st := Stream(kms, {}, 1, 0, true);
            r1.streams == [st] && r2.streams == [st.(unready := {km})]
            && Remove(r2, 0).streams == [st.(unready := {km}, registered := false)]
  {
    var st := Stream(kms, {}, 1, 0, true);
    assert [] + [st] == [st] && {} + {km} == {km};
    assert [st][0 := st.(unready := {km})] == [st.(unready := {km})];
  }

  /** A reachable state with no stream connected and the gate open. */
  lemma GateCanStayOpen(km: KindVersion) returns (rs: seq<Registry>, ops: seq<Op>)
    ensures Run(rs, ops) && |ops| == 3 && HasSubscriber(rs[3], km)
    ensures forall n | 0 <= n < |rs[3].streams| :: !rs[3].streams[n].registered
  {
    StreamsThereAndBack(Empty(), [km, km], km);
    ops := [Connect([km, km], 1), Flip(0, km, false), Disconnect(0)];
    var r1 := Apply(Empty(), ops[0]);
    var r2 := Apply(r1, ops[1]);
    var r3 := Apply(r2, ops[2]);
    rs := [Empty(), r1, r2, r3];
    assert rs[1] == r1 && rs[2] == r2 && rs[3] == r3 && ops[1] == Flip(0, km, false) && ops[2] == Disconnect(0);
    assert Applied(Empty(), ops[0], r1) && Applied(r1, ops[1], r2) && Applied(r2, ops[2], r3);
    TwiceListed(km);
    assert SomeOvercounted(r3, km) by { assert km in r3.streams[0].unready && Times(r3.streams[0].kms, km) > 1; }
    assert Run(rs, ops);
    GateOpenExactlyWhen(rs, ops, 3, km);
  }

  /**
    A flip that arrives for a stream already removed, which setStreamReadiness does not
    exclude, leaves every ready count alone exactly when the stream does not list the pair,
    is already in the requested state, or withdraws a pair whose count is already zero.
   */
  lemma LateFlipHarmless(r: Registry, n: nat, km: KindVersion, ready: bool)
    requires NoPhantoms(r.ready) && n < |r.streams| && !r.streams[n].registered
    ensures SetReadiness(r, n, km, ready).ready == r.ready <==>
            !Serves(r.streams[n], km) || ready == (km !in r.streams[n].unready) || (!ready && Count(r.ready, km) == 0)
  {
    var st := r.streams[n];
    CountNonNegative(r.ready, km);
    if Serves(st, km) && ready && km in st.unready {
      assert Count(Bump(r.ready, km), km) == Count(r.ready, km) + 1;
    } else if Serves(st, km) && !ready && km !in st.unready {
      if Count(r.ready, km) == 0 {
        SameCounts(Drop(r.ready, km), r.ready);
      } else {
        assert Count(Drop(r.ready, km), km) == Count(r.ready, km) - 1;
      }
    }
  }

  // ---------------------------------------------------------------- runs with late flips

  /** A run of everything the code admits. */
  ghost predicate LooseRun(rs: seq<Registry>, ops: seq<Op>) {
    && |rs| == |ops| + 1 && rs[0] == Empty()
    && (forall i | 0 <= i < |ops| :: Took(rs[i], ops[i], rs[i + 1]))
  }

  ghost predicate Took(r: Registry, op: Op, r': Registry) {
    Possible(r, op) && r' == Apply(r, op)
  }

  /** An RS- for a stream that has been removed while it was ready: the count is taken from someone else. */
  predicate LateWithdrawal(r: Registry, op: Op, km: KindVersion) {
    op.Flip? && op.km == km && !op.ready && op.n < |r.streams| && !r.streams[op.n].registered && ReadyFor(r.streams[op.n], km)
  }

  ghost predicate NoLateWithdrawal(rs: seq<Registry>, ops: seq<Op>, i: nat, km: KindVersion)
    requires |rs| == |ops| + 1 && i <= |ops|
  {
    forall j | 0 <= j < i :: !LateWithdrawal(rs[j], ops[j], km)
  }

  /** What the connected streams alone justify. */
  ghost function Floor(st: Stream, km: KindVersion): int {
    if st.registered then Times(st.kms, km) - (if km in st.unready then 1 else 0) else 0
  }

  ghost function FloorTotal(streams: seq<Stream>, km: KindVersion): int {
    if streams == [] then 0 else FloorTotal(streams[..|streams| - 1], km) + Floor(streams[|streams| - 1], km)
  }

  ghost predicate AllServed(streams: seq<Stream>) {
    forall n | 0 <= n < |streams| :: UnreadyServed(streams[n])
  }

  /** The ready count covers the connected streams. */
  ghost predicate Covers(r: Registry, km: KindVersion) {
    NoPhantoms(r.ready) && AllServed(r.streams) && Count(r.ready, km) >= FloorTotal(r.streams, km)
  }

  lemma {:induction false} FloorUpdate(streams: seq<Stream>, n: nat, st: Stream, km: KindVersion)
    requires n < |streams|
    ensures FloorTotal(streams[n := st], km) == FloorTotal(streams, km) - Floor(streams[n], km) + Floor(st, km)
  {
    var last := |streams| - 1;
    if n == last {
      assert streams[n := st][..last] == streams[..last];
    } else {
      FloorUpdate(streams[..last], n, st, km);
      assert streams[n := st][..last] == streams[..last][n := st];
    }
  }

  lemma FloorNonNegative(st: Stream, km: KindVersion)
    requires UnreadyServed(st)
    ensures Floor(st, km) >= 0 && (st.registered && ReadyFor(st, km) ==> Floor(st, km) > 0)
  {
    TimesIn(st.kms, km);
  }

  lemma {:induction false} FloorBounds(streams: seq<Stream>, km: KindVersion)
    requires AllServed(streams)
    ensures FloorTotal(streams, km) >= 0 && forall n | 0 <= n < |streams| :: Floor(streams[n], km) <= FloorTotal(streams, km)
  {
    if streams != [] {
      var rest := streams[..|streams| - 1];
      assert forall n | 0 <= n < |rest| :: rest[n] == streams[n];
      FloorBounds(rest, km);
      FloorNonNegative(streams[|streams| - 1], km);
    }
  }

  lemma AddCovers(r: Registry, kms: seq<KindVersion>, maxInflight: int, km: KindVersion)
    requires Covers(r, km)
    ensures Covers(Add(r, kms, maxInflight), km)
  {
    var r' := Add(r, kms, maxInflight);
    assert r'.streams[..|r'.streams| - 1] == r.streams;
    BumpAllCounts(r.ready, kms, km);
  }

  lemma RemoveCovers(r: Registry, n: nat, km: KindVersion)
    requires Covers(r, km) && n < |r.streams| && r.streams[n].registered
    ensures Covers(Remove(r, n), km)
  {
    var st := r.streams[n];
    DropAllCounts(r.ready, st.kms, st.unready, km);
    FloorUpdate(r.streams, n, st.(registered := false), km);
    FloorBounds(r.streams, km);
    FloorNonNegative(st, km);
    CountNonNegative(r.ready, km);
  }

  lemma FlipCovers(r: Registry, n: nat, x: KindVersion, ready: bool, km: KindVersion)
    requires Covers(r, km) && n < |r.streams| && !LateWithdrawal(r, Flip(n, x, ready), km)
    ensures Covers(SetReadiness(r, n, x, ready), km)
  {
    var r', st := SetReadiness(r, n, x, ready), r.streams[n];
    FloorUpdate(r.streams, n, r'.streams[n], km);
    assert r'.streams == r.streams[n := r'.streams[n]];
    FloorBounds(r.streams, km);
    FloorNonNegative(st, km);
  }

  lemma RecountCovers(r: Registry, n: nat, delta: int, km: KindVersion)
    requires Covers(r, km) && n < |r.streams|
    ensures Covers(Recount(r, n, delta), km)
  {
    FloorUpdate(r.streams, n, Recount(r, n, delta).streams[n], km);
  }

  /** Over every run of what the code admits, the ready count covers the connected streams as long as no late RS- of the pair came. */
  lemma {:induction false} LooseRunCovers(rs: seq<Registry>, ops: seq<Op>, i: nat, km: KindVersion)
    requires LooseRun(rs, ops) && i < |rs| && NoLateWithdrawal(rs, ops, i, km)
    ensures Covers(rs[i], km)
  {
    if i > 0 {
      LooseRunCovers(rs, ops, i - 1, km);
      assert Took(rs[i - 1], ops[i - 1], rs[i]) && !LateWithdrawal(rs[i - 1], ops[i - 1], km);
      match ops[i - 1]
      case Connect(kms, maxInflight) => AddCovers(rs[i - 1], kms, maxInflight, km);
      case Disconnect(n) => RemoveCovers(rs[i - 1], n, km);
      case Flip(n, x, ready) => FlipCovers(rs[i - 1], n, x, ready, km);
      case Charge(n) => RecountCovers(rs[i - 1], n, 1, km);
      case Free(n) => RecountCovers(rs[i - 1], n, -1, km);
    }
  }

  lemma {:induction false} LooseRunNoPhantoms(rs: seq<Registry>, ops: seq<Op>, i: nat)
    requires LooseRun(rs, ops) && i < |rs|
    ensures NoPhantoms(rs[i].ready)
  {
    if i > 0 {
      LooseRunNoPhantoms(rs, ops, i - 1);
      assert Took(rs[i - 1], ops[i - 1], rs[i]);
    }
  }
}
