/**
  Where a stage physically sits: the per-pair buffers, the hands of the goroutines that
  move it, the route queues between brokers, and the workers it was sent to. Each place
  is a sequence (a channel, a local variable, a wire); an operation takes one item out of
  one place and puts it into another, or loses it.
 */
module Custody {
  import opened BrokerTypes

  datatype Place =
    | Dispatching(broker: nat)                  // registered by dispatchStage, not placed yet
    | Buffer(broker: nat, kv: KindVersion)      // byKind channel
    | FanHand(sub: SubKey, i: nat)              // popped by fan-in i of a stream, not handed over
    | FanBack(sub: SubKey, i: nat)              // being returned by that fan-in
    | LoopHand(sub: SubKey)                     // held by the stream's main loop
    | SentTo(sub: SubKey)                       // successfully sent to the worker
    | RouteHand(peer: PeerKey)                  // received from a peer, not buffered yet
    | OutQueue(peer: PeerKey)                   // peerClient.out
    | Wire(peer: PeerKey)                       // on the route, not received yet

  datatype Item = TaskFrame(task: StageTask) | CompleteFrame(sc: StageComplete)

  type Places = map<Place, seq<Item>>

  function At(m: Places, l: Place): seq<Item> {
    if l in m then m[l] else []
  }

  function Put(m: Places, l: Place, x: Item): Places {
    m[l := At(m, l) + [x]]
  }

  function Take(m: Places, l: Place, i: nat): Places
    requires i < |At(m, l)|
  {
    m[l := At(m, l)[..i] + At(m, l)[i + 1..]]
  }

  function Move(m: Places, l: Place, i: nat, l2: Place): Places
    requires i < |At(m, l)|
  {
    Put(Take(m, l, i), l2, At(m, l)[i])
  }

  ghost predicate In(m: Places, l: Place, x: Item) {
    x in At(m, l)
  }

  ghost predicate IsTask(m: Places, l: Place, i: int) {
    0 <= i < |At(m, l)| && At(m, l)[i].TaskFrame?
  }

  ghost function TokenAt(m: Places, l: Place, i: int): Token
    requires IsTask(m, l, i)
  {
    At(m, l)[i].task.leaseToken
  }

  /** No lease token sits in two places, nor twice in one. */
  ghost predicate Unique(m: Places) {
    forall l1, i1, l2, i2 ::
      IsTask(m, l1, i1) && IsTask(m, l2, i2) && TokenAt(m, l1, i1) == TokenAt(m, l2, i2)
      ==> l1 == l2 && i1 == i2
  }

  ghost predicate Absent(m: Places, tok: Token) {
    forall l, task :: In(m, l, TaskFrame(task)) ==> task.leaseToken != tok
  }

  lemma PutIn(m: Places, l: Place, x: Item)
    ensures forall l', y :: In(Put(m, l, x), l', y) <==> In(m, l', y) || (l' == l && y == x)
  {
  }

  lemma TakeIn(m: Places, l: Place, i: nat)
    requires i < |At(m, l)|
    ensures forall l', y :: In(Take(m, l, i), l', y) ==> In(m, l', y)
    ensures forall l', y :: In(m, l', y) && (l' != l || y != At(m, l)[i]) ==> In(Take(m, l, i), l', y)
  {
    var m' := Take(m, l, i);
    forall y | In(m, l, y) && y != At(m, l)[i] ensures In(m', l, y) {
      var j :| 0 <= j < |At(m, l)| && At(m, l)[j] == y;
      if j < i { assert At(m', l)[j] == y; } else { assert At(m', l)[j - 1] == y; }
    }
  }

  lemma MoveIn(m: Places, l: Place, i: nat, l2: Place)
    requires i < |At(m, l)|
    ensures forall l', y :: In(Move(m, l, i, l2), l', y) ==> In(m, l', y) || (l' == l2 && y == At(m, l)[i])
    ensures In(m, l, At(m, l)[i])
  {
    TakeIn(m, l, i);
    PutIn(Take(m, l, i), l2, At(m, l)[i]);
  }

  /** Taking a task out keeps tokens unique and leaves no trace of the token. */
  lemma TakeUnique(m: Places, l: Place, i: nat)
    requires Unique(m) && IsTask(m, l, i)
    ensures Unique(Take(m, l, i))
    ensures Absent(Take(m, l, i), TokenAt(m, l, i))
  {
    var m' := Take(m, l, i);
    forall l1, i1 | IsTask(m', l1, i1)
      ensures
        var j1 := if l1 == l && i1 >= i then i1 + 1 else i1;
        IsTask(m, l1, j1) && TokenAt(m, l1, j1) == TokenAt(m', l1, i1)
    {
    }
    forall l1, task | In(m', l1, TaskFrame(task)) ensures task.leaseToken != TokenAt(m, l, i) {
      var i1 :| 0 <= i1 < |At(m', l1)| && At(m', l1)[i1] == TaskFrame(task);
      var j1 := if l1 == l && i1 >= i then i1 + 1 else i1;
      assert IsTask(m', l1, i1) && IsTask(m, l1, j1);
    }
  }

  lemma PutUnique(m: Places, l: Place, x: Item)
    requires Unique(m) && (x.TaskFrame? ==> Absent(m, x.task.leaseToken))
    ensures Unique(Put(m, l, x))
  {
    var m' := Put(m, l, x);
    forall l1, i1 | IsTask(m', l1, i1) && !(l1 == l && i1 == |At(m, l)|)
      ensures IsTask(m, l1, i1) && TokenAt(m, l1, i1) == TokenAt(m', l1, i1)
      ensures x.TaskFrame? ==> TokenAt(m', l1, i1) != x.task.leaseToken
    {
      assert In(m, l1, At(m, l1)[i1]);
    }
  }

  /** A task already present sits in exactly one place. */
  lemma OnePlace(m: Places, l1: Place, t1: StageTask, l2: Place, t2: StageTask)
    requires Unique(m) && In(m, l1, TaskFrame(t1)) && In(m, l2, TaskFrame(t2)) && t1.leaseToken == t2.leaseToken
    ensures l1 == l2 && t1 == t2
  {
    var i1 :| 0 <= i1 < |At(m, l1)| && At(m, l1)[i1] == TaskFrame(t1);
    var i2 :| 0 <= i2 < |At(m, l2)| && At(m, l2)[i2] == TaskFrame(t2);
    assert IsTask(m, l1, i1) && IsTask(m, l2, i2);
  }

  // ------------------------------------------------------- what one move changes, in full

  ghost predicate SameCompletes(m: Places, m': Places) {
    forall l, sc :: In(m', l, CompleteFrame(sc)) <==> In(m, l, CompleteFrame(sc))
  }

  /** After m', that StageTask sits at l2 and nowhere else; every other task is where it was. */
  ghost predicate Moved(m: Places, m': Places, task: StageTask, l2: Place) {
    && Unique(m')
    && SameCompletes(m, m')
    && (forall l, t :: In(m', l, TaskFrame(t)) <==>
                       (l == l2 && t == task) || (In(m, l, TaskFrame(t)) && t.leaseToken != task.leaseToken))
  }

  ghost predicate Removed(m: Places, m': Places, task: StageTask) {
    && Unique(m')
    && SameCompletes(m, m')
    && (forall l, t :: In(m', l, TaskFrame(t)) <==> In(m, l, TaskFrame(t)) && t.leaseToken != task.leaseToken)
  }

  /** Everything that was not at l is still where it was. */
  ghost predicate Elsewhere(m: Places, m': Places, l: Place) {
    forall l', t :: In(m, l', TaskFrame(t)) && l' != l ==> In(m', l', TaskFrame(t))
  }

  lemma TakeRemoves(m: Places, l: Place, i: nat)
    requires Unique(m) && IsTask(m, l, i)
    ensures Removed(m, Take(m, l, i), At(m, l)[i].task)
    ensures In(m, l, TaskFrame(At(m, l)[i].task))
    ensures Elsewhere(m, Take(m, l, i), l)
  {
    TakeIn(m, l, i);
    TakeUnique(m, l, i);
    assert In(m, l, At(m, l)[i]);
  }

  lemma MoveMoves(m: Places, l: Place, i: nat, l2: Place)
    requires Unique(m) && IsTask(m, l, i)
    ensures Moved(m, Move(m, l, i, l2), At(m, l)[i].task, l2)
    ensures In(m, l, TaskFrame(At(m, l)[i].task))
    ensures Elsewhere(m, Move(m, l, i, l2), l)
  {
    var x := At(m, l)[i];
    TakeRemoves(m, l, i);
    var m1 := Take(m, l, i);
    PutIn(m1, l2, x);
    TakeUnique(m, l, i);
    PutUnique(m1, l2, x);
  }

  lemma PutAdds(m: Places, l: Place, task: StageTask)
    requires Unique(m) && Absent(m, task.leaseToken)
    ensures Moved(m, Put(m, l, TaskFrame(task)), task, l)
  {
    PutIn(m, l, TaskFrame(task));
    PutUnique(m, l, TaskFrame(task));
  }

  /** Putting or taking a Complete frame leaves every task where it was. */
  ghost predicate SameTasks(m: Places, m': Places) {
    && Unique(m')
    && (forall l, t :: In(m', l, TaskFrame(t)) <==> In(m, l, TaskFrame(t)))
  }

  lemma PutComplete(m: Places, l: Place, sc: StageComplete)
    requires Unique(m)
    ensures SameTasks(m, Put(m, l, CompleteFrame(sc)))
    ensures forall l', c :: In(Put(m, l, CompleteFrame(sc)), l', CompleteFrame(c))
                            <==> In(m, l', CompleteFrame(c)) || (l' == l && c == sc)
  {
    PutIn(m, l, CompleteFrame(sc));
    PutUnique(m, l, CompleteFrame(sc));
  }

  lemma TakeComplete(m: Places, l: Place, i: nat)
    requires Unique(m) && i < |At(m, l)| && At(m, l)[i].CompleteFrame?
    ensures SameTasks(m, Take(m, l, i))
    ensures forall l', c :: In(Take(m, l, i), l', CompleteFrame(c)) ==> In(m, l', CompleteFrame(c))
    ensures In(m, l, At(m, l)[i])
  {
    TakeIn(m, l, i);
    var m' := Take(m, l, i);
    forall l1, i1 | IsTask(m', l1, i1)
      ensures
        var j1 := if l1 == l && i1 >= i then i1 + 1 else i1;
        IsTask(m, l1, j1) && TokenAt(m, l1, j1) == TokenAt(m', l1, i1)
    {
    }
  }

  lemma MoveComplete(m: Places, l: Place, i: nat, l2: Place)
    requires Unique(m) && i < |At(m, l)| && At(m, l)[i].CompleteFrame?
    ensures SameTasks(m, Move(m, l, i, l2))
    ensures forall l', c :: In(Move(m, l, i, l2), l', CompleteFrame(c)) ==>
                            In(m, l', CompleteFrame(c)) || (l' == l2 && CompleteFrame(c) == At(m, l)[i])
    ensures In(m, l, At(m, l)[i])
  {
    TakeComplete(m, l, i);
    PutComplete(Take(m, l, i), l2, At(m, l)[i].sc);
  }
}
