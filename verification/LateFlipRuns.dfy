/** Runs in which a readiness flip that came late makes a broker offer slots without a worker. */
module LateFlipRuns {
  import opened BrokerTypes
  import opened Int32
  import opened Readiness
  import opened Subscribers
  import opened LateFlips
  import opened PeerHints

  /** A connected, ready stream with ceiling 1 and nothing in flight. */
  function Idle(km: KindVersion): Stream {
    Stream([km], {}, 1, 0, true)
  }

  function Busy(km: KindVersion): Stream {
    Idle(km).(inflight := 1)
  }

  function Left(km: KindVersion): Stream {
    Idle(km).(registered := false)
  }

  function LeftAndWithdrawn(km: KindVersion): Stream {
    Idle(km).(registered := false, unready := {km})
  }

  ghost predicate At(r: Registry, streams: seq<Stream>, count: nat, km: KindVersion) {
    Reached(r) && r.streams == streams && Count(r.ready, km) == count
  }

  lemma Start(km: KindVersion) returns (r: Registry)
    ensures At(r, [], 0, km)
  {
    StartReached();
    r := Empty();
  }

  lemma ConnectOne(r: Registry, streams: seq<Stream>, count: nat, km: KindVersion) returns (r': Registry)
    requires At(r, streams, count, km)
    ensures r' == Apply(r, Connect([km], 1)) && At(r', streams + [Idle(km)], count + 1, km)
  {
    r' := Apply(r, Connect([km], 1));
    ReachedCount(r, Connect([km], 1), km);
    assert Times([km], km) == 1;
  }

  lemma DisconnectOne(r: Registry, streams: seq<Stream>, count: nat, n: nat, km: KindVersion) returns (r': Registry)
    requires At(r, streams, count, km) && count > 0 && n < |streams| && streams[n] == Idle(km)
    ensures r' == Apply(r, Disconnect(n)) && At(r', streams[n := Left(km)], count - 1, km)
  {
    r' := Apply(r, Disconnect(n));
    ReachedCount(r, Disconnect(n), km);
    assert Times([km], km) == 1;
  }

  lemma WithdrawLate(r: Registry, streams: seq<Stream>, count: nat, n: nat, km: KindVersion) returns (r': Registry)
    requires At(r, streams, count, km) && count > 0 && n < |streams| && streams[n] == Left(km)
    ensures LateWithdrawal(r, Flip(n, km, false), km)
    ensures r' == Apply(r, Flip(n, km, false)) && At(r', streams[n := LeftAndWithdrawn(km)], count - 1, km)
  {
    r' := Apply(r, Flip(n, km, false));
    ReachedCount(r, Flip(n, km, false), km);
    assert {} + {km} == {km};
  }

  lemma ChargeOne(r: Registry, streams: seq<Stream>, count: nat, n: nat, km: KindVersion) returns (r': Registry)
    requires At(r, streams, count, km) && n < |streams| && streams[n] == Idle(km)
    ensures r' == Apply(r, Charge(n)) && At(r', streams[n := Busy(km)], count, km)
  {
    r' := Apply(r, Charge(n));
    ReachedCount(r, Charge(n), km);
  }

  lemma FreeOne(r: Registry, streams: seq<Stream>, count: nat, n: nat, km: KindVersion) returns (r': Registry)
    requires At(r, streams, count, km) && n < |streams| && streams[n] == Busy(km)
    ensures r' == Apply(r, Free(n)) && At(r', streams[n := Idle(km)], count, km)
  {
    r' := Apply(r, Free(n));
    ReachedCount(r, Free(n), km);
  }

  /** Nothing but the last stream has anything to offer. */
  lemma {:induction false} LastOffers(streams: seq<Stream>, km: KindVersion)
    requires |streams| > 0 && forall n | 0 <= n < |streams| - 1 :: Offer(streams[n], km) == 0
    ensures FreeSlots(streams, km) == Offer(streams[|streams| - 1], km)
  {
    var rest := streams[..|streams| - 1];
    if rest != [] { LastOffers(rest, km); }
  }

  /** At count zero a frame is honest exactly when the last stream, the only one connected, is busy. */
  lemma FrameAtZero(r: Registry, streams: seq<Stream>, km: KindVersion)
    requires At(r, streams, 0, km) && |streams| > 0 && forall n | 0 <= n < |streams| - 1 :: !streams[n].registered
    requires streams[|streams| - 1] in {Idle(km), Busy(km)}
    ensures Honest(Advertised(r, km)) <==> streams[|streams| - 1] == Busy(km)
    ensures streams[|streams| - 1] == Idle(km) ==> Advertised(r, km) == Interest(km, 1, false)
  {
    LastOffers(streams, km);
    assert Wrap(1) == 1 && Wrap(0) == 0;
  }

  /** The frame that offers one slot and no worker leaves a peer with credit for a pair it believes unserved. */
  lemma PeerIsMisled(km: KindVersion)
    ensures var h := After([Interest(km, 1, false)]); Credit(h, km) == 1 && km !in h.serves
  {
    HintIsLastFrame([Interest(km, 1, false)], km);
  }

  /** n streams connect. */
  lemma {:induction false} Connected(n: nat, km: KindVersion) returns (r: Registry)
    ensures At(r, seq(n, i => Idle(km)), n, km)
  {
    if n == 0 {
      r := Start(km);
    } else {
      r := Connected(n - 1, km);
      r := ConnectOne(r, seq(n - 1, i => Idle(km)), n - 1, km);
      assert seq(n - 1, i => Idle(km)) + [Idle(km)] == seq(n, i => Idle(km));
    }
  }

  lemma OneOfTwoLeft(km: KindVersion) returns (r: Registry)
    ensures At(r, [Left(km), Idle(km)], 1, km)
  {
    r := Connected(2, km);
    assert seq(2, i => Idle(km)) == [Idle(km), Idle(km)];
    r := DisconnectOne(r, [Idle(km), Idle(km)], 2, 0, km);
  }

  lemma OneOfThreeLeft(km: KindVersion) returns (r: Registry)
    ensures At(r, [Left(km), Idle(km), Idle(km)], 2, km)
  {
    r := Connected(3, km);
    assert seq(3, i => Idle(km)) == [Idle(km), Idle(km), Idle(km)];
    r := DisconnectOne(r, [Idle(km), Idle(km), Idle(km)], 3, 0, km);
  }

  /** Two streams connect, one leaves and then withdraws: that closes the gate of the idle one, which is offered without a worker. */
  lemma LateFlipMisleads(km: KindVersion) returns (r: Registry, r': Registry)
    ensures Reached(r) && LateWithdrawal(r, Flip(0, km, false), km) && r' == Apply(r, Flip(0, km, false))
    ensures r'.streams == [LeftAndWithdrawn(km), Idle(km)] && !HasSubscriber(r', km) && !Honest(Advertised(r', km))
    ensures var h := After([Advertised(r', km)]); Credit(h, km) == 1 && km !in h.serves
  {
    r := OneOfTwoLeft(km);
    r' := WithdrawLate(r, [Left(km), Idle(km)], 1, 0, km);
    FrameAtZero(r', [LeftAndWithdrawn(km), Idle(km)], km);
    PeerIsMisled(km);
  }

  lemma BusyWhenWithdrawn(km: KindVersion) returns (r: Registry, r': Registry)
    ensures Reached(r) && LateWithdrawal(r, Flip(0, km, false), km) && r' == Apply(r, Flip(0, km, false))
    ensures At(r', [LeftAndWithdrawn(km), Busy(km)], 0, km)
  {
    r := OneOfTwoLeft(km);
    r := ChargeOne(r, [Left(km), Idle(km)], 1, 1, km);
    r' := WithdrawLate(r, [Left(km), Busy(km)], 1, 0, km);
  }

  /**
    The late withdrawal itself does no harm and a task that ends afterwards does: the
    connected stream is busy when the count goes to zero, and its slot is offered once it
    is free.
   */
  lemma FreeMisleads(km: KindVersion) returns (r: Registry, r1: Registry, r2: Registry)
    ensures Reached(r) && LateWithdrawal(r, Flip(0, km, false), km) && r1 == Apply(r, Flip(0, km, false))
    ensures Possible(r1, Free(1)) && r2 == Apply(r1, Free(1)) && r2.streams == [LeftAndWithdrawn(km), Idle(km)]
    ensures Honest(Advertised(r1, km)) && !Honest(Advertised(r2, km))
  {
    r, r1 := BusyWhenWithdrawn(km);
    FrameAtZero(r1, [LeftAndWithdrawn(km), Busy(km)], km);
    r2 := FreeOne(r1, [LeftAndWithdrawn(km), Busy(km)], 0, 1, km);
    FrameAtZero(r2, [LeftAndWithdrawn(km), Idle(km)], km);
  }

  /** A disconnect does the harm: the late withdrawal took the count of a stream that stays. */
  lemma LeaveMisleads(km: KindVersion) returns (r: Registry, r1: Registry, r2: Registry)
    ensures Reached(r) && LateWithdrawal(r, Flip(0, km, false), km) && r1 == Apply(r, Flip(0, km, false))
    ensures Possible(r1, Disconnect(1)) && r2 == Apply(r1, Disconnect(1))
    ensures r2.streams == [LeftAndWithdrawn(km), Left(km), Idle(km)]
    ensures Honest(Advertised(r1, km)) && !Honest(Advertised(r2, km))
  {
    r := OneOfThreeLeft(km);
    r1 := WithdrawLate(r, [Left(km), Idle(km), Idle(km)], 2, 0, km);
    r2 := DisconnectOne(r1, [LeftAndWithdrawn(km), Idle(km), Idle(km)], 1, 1, km);
    FrameAtZero(r2, [LeftAndWithdrawn(km), Left(km), Idle(km)], km);
  }
}
