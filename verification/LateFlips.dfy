/**
  The ready counts over every run the code admits, flips of removed streams included. A drop
  stops at zero, so a count is the net of all its bumps and drops less the lowest that net
  has been; the net itself is what the connected streams justify plus what strays left.
 */
module LateFlips {
  import opened BrokerTypes
  import opened Readiness

  // ---------------------------------------------------------------- the net of a run

  /** How an operation moves the ready count of a pair, before the count is stopped at zero. */
  ghost function Delta(r: Registry, op: Op, km: KindVersion): int
    requires Possible(r, op)
  {
    match op
    case Connect(kms, _) => Times(kms, km)
    case Disconnect(n) => if km in r.streams[n].unready then 0 else 0 - Times(r.streams[n].kms, km)
    case Flip(n, x, ready) => if x == km then FlipDelta(r.streams[n], km, ready) else 0
    case Charge(_) => 0
    case Free(_) => 0
  }

  function FlipDelta(st: Stream, km: KindVersion, ready: bool): int {
    if !Serves(st, km) || ready == (km !in st.unready) then 0 else if ready then 1 else -1
  }

  ghost function Net(rs: seq<Registry>, ops: seq<Op>, i: nat, km: KindVersion): int
    requires LooseRun(rs, ops) && i < |rs|
  {
    if i == 0 then 0
    else
      assert Took(rs[i - 1], ops[i - 1], rs[i]);
      Net(rs, ops, i - 1, km) + Delta(rs[i - 1], ops[i - 1], km)
  }

  /** The lowest the net has been. */
  ghost function Low(rs: seq<Registry>, ops: seq<Op>, i: nat, km: KindVersion): (low: int)
    requires LooseRun(rs, ops) && i < |rs|
    ensures low <= 0 && (forall j: nat | j <= i :: low <= Net(rs, ops, j, km)) && exists j: nat :: j <= i && Net(rs, ops, j, km) == low
  {
    if i == 0 then
      assert Net(rs, ops, 0, km) == 0;
      0
    else if Net(rs, ops, i, km) < Low(rs, ops, i - 1, km) then Net(rs, ops, i, km)
    else Low(rs, ops, i - 1, km)
  }

  // ---------------------------------------------------------------- one operation on the counts

  /** Every operation adds its delta and stops at zero. */
  lemma CountMoves(r: Registry, op: Op, km: KindVersion)
    requires NoPhantoms(r.ready) && Possible(r, op)
    ensures var moved := Count(r.ready, km) + Delta(r, op, km);
            Count(Apply(r, op).ready, km) == if moved > 0 then moved else 0
  {
    CountNonNegative(r.ready, km);
    match op
    case Connect(kms, _) => BumpAllCounts(r.ready, kms, km);
    case Disconnect(n) => DropAllCounts(r.ready, r.streams[n].kms, r.streams[n].unready, km);
    case Flip(_, _, _) =>
    case Charge(_) =>
    case Free(_) =>
  }

  /** The ready count of a pair, in every state of every run: the net, less the lowest it has been. */
  lemma {:induction false} CountIsNet(rs: seq<Registry>, ops: seq<Op>, i: nat, km: KindVersion)
    requires LooseRun(rs, ops) && i < |rs|
    ensures Count(rs[i].ready, km) == Net(rs, ops, i, km) - Low(rs, ops, i, km)
  {
    if i > 0 {
      CountIsNet(rs, ops, i - 1, km);
      StepMoves(rs, ops, i - 1, km);
    }
  }

  lemma StepMoves(rs: seq<Registry>, ops: seq<Op>, i: nat, km: KindVersion)
    requires LooseRun(rs, ops) && i < |ops|
    ensures Possible(rs[i], ops[i]) && Count(rs[i].ready, km) >= 0
    ensures var moved := Count(rs[i].ready, km) + Delta(rs[i], ops[i], km);
            Count(rs[i + 1].ready, km) == if moved > 0 then moved else 0
  {
    LooseRunNoPhantoms(rs, ops, i);
    CountNonNegative(rs[i].ready, km);
    assert Took(rs[i], ops[i], rs[i + 1]);
    CountMoves(rs[i], ops[i], km);
  }

  /** The net has never been lower than it is now. */
  ghost predicate AtLowest(rs: seq<Registry>, ops: seq<Op>, i: nat, km: KindVersion)
    requires LooseRun(rs, ops) && i < |rs|
  {
    forall j: nat | j <= i :: Net(rs, ops, i, km) <= Net(rs, ops, j, km)
  }

  /** The claim gate, in every state of every run, flips early or late: closed if and only if the net is at its lowest so far. */
  lemma GateClosedExactlyWhen(rs: seq<Registry>, ops: seq<Op>, i: nat, km: KindVersion)
    requires LooseRun(rs, ops) && i < |rs|
    ensures !HasSubscriber(rs[i], km) <==> AtLowest(rs, ops, i, km)
  {
    CountIsNet(rs, ops, i, km);
    var low := Low(rs, ops, i, km);
    var j: nat :| j <= i && Net(rs, ops, j, km) == low;
    assert AtLowest(rs, ops, i, km) ==> Net(rs, ops, i, km) <= Net(rs, ops, j, km);
  }

  // ---------------------------------------------------------------- what the net stands for

  /**
    What an operation leaves in the net that no connected stream stands for: all listings but
    the withdrawn one when a stream leaves after an RS-, and every effective flip that comes late.
   */
  ghost function Stray(r: Registry, op: Op, km: KindVersion): int
    requires Possible(r, op)
  {
    match op
    case Disconnect(n) => if km in r.streams[n].unready then Times(r.streams[n].kms, km) - 1 else 0
    case Flip(n, x, ready) => if x == km && !r.streams[n].registered then FlipDelta(r.streams[n], km, ready) else 0
    case _ => 0
  }

  ghost function Strays(rs: seq<Registry>, ops: seq<Op>, i: nat, km: KindVersion): int
    requires LooseRun(rs, ops) && i < |rs|
  {
    if i == 0 then 0
    else
      assert Took(rs[i - 1], ops[i - 1], rs[i]);
      Strays(rs, ops, i - 1, km) + Stray(rs[i - 1], ops[i - 1], km)
  }

  lemma FlipFloor(r: Registry, n: nat, x: KindVersion, ready: bool, km: KindVersion)
    requires n < |r.streams|
    ensures FloorTotal(SetReadiness(r, n, x, ready).streams, km)
         == FloorTotal(r.streams, km) + Delta(r, Flip(n, x, ready), km) - Stray(r, Flip(n, x, ready), km)
  {
    var st' := SetReadiness(r, n, x, ready).streams[n];
    FloorUpdate(r.streams, n, st', km);
    assert SetReadiness(r, n, x, ready).streams == r.streams[n := st'];
  }

  lemma FloorMoves(r: Registry, op: Op, km: KindVersion)
    requires Possible(r, op)
    ensures FloorTotal(Apply(r, op).streams, km) == FloorTotal(r.streams, km) + Delta(r, op, km) - Stray(r, op, km)
  {
    var r' := Apply(r, op);
    match op
    case Connect(_, _) => assert r'.streams[..|r'.streams| - 1] == r.streams;
    case Disconnect(n) => FloorUpdate(r.streams, n, r'.streams[n], km);
    case Flip(n, x, ready) => FlipFloor(r, n, x, ready, km);
    case Charge(n) => FloorUpdate(r.streams, n, r'.streams[n], km);
    case Free(n) =>
      FloorUpdate(r.streams, n, r'.streams[n], km);
      assert r'.streams == r.streams[n := r'.streams[n]];
  }

  /** The net, in every state of every run: what the connected streams justify and what the strays left. */
  lemma {:induction false} NetIsStreams(rs: seq<Registry>, ops: seq<Op>, i: nat, km: KindVersion)
    requires LooseRun(rs, ops) && i < |rs|
    ensures Net(rs, ops, i, km) == FloorTotal(rs[i].streams, km) + Strays(rs, ops, i, km)
  {
    if i > 0 {
      NetIsStreams(rs, ops, i - 1, km);
      assert Took(rs[i - 1], ops[i - 1], rs[i]);
      FloorMoves(rs[i - 1], ops[i - 1], km);
    }
  }

  // ---------------------------------------------------------------- reaching a state

  ghost predicate Reached(r: Registry) {
    exists rs, ops :: LooseRun(rs, ops) && rs[|ops|] == r
  }

  lemma StartReached()
    ensures Reached(Empty())
  {
    var ops: seq<Op> := [];
    assert LooseRun([Empty()], ops) && [Empty()][|ops|] == Empty();
  }

  lemma StepReached(r: Registry, op: Op)
    requires Reached(r) && Possible(r, op)
    ensures Reached(Apply(r, op))
  {
    var rs, ops :| LooseRun(rs, ops) && rs[|ops|] == r;
    var rs', ops' := rs + [Apply(r, op)], ops + [op];
    forall i | 0 <= i < |ops'| ensures Took(rs'[i], ops'[i], rs'[i + 1]) {
      if i < |ops| { assert Took(rs[i], ops[i], rs[i + 1]); }
    }
    assert LooseRun(rs', ops') && rs'[|ops'|] == Apply(r, op);
  }

  /** The count of a pair one operation on. */
  lemma ReachedCount(r: Registry, op: Op, km: KindVersion)
    requires Reached(r) && Possible(r, op)
    ensures Reached(Apply(r, op)) && Count(r.ready, km) >= 0
    ensures var moved := Count(r.ready, km) + Delta(r, op, km);
            Count(Apply(r, op).ready, km) == if moved > 0 then moved else 0
  {
    var rs, ops :| LooseRun(rs, ops) && rs[|ops|] == r;
    LooseRunNoPhantoms(rs, ops, |ops|);
    CountNonNegative(r.ready, km);
    CountMoves(r, op, km);
    StepReached(r, op);
  }
}
