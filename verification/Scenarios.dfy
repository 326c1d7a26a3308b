/**
  Runs that show where the code promises less than its comments: a capacity token can be
  stranded, a pulled stage can be lost although its buffer has room, a synthetic failure
  can beat a genuine result, and onPeerGone alone can miss a pushed stage.
 */
module Scenarios {
  import opened Wrappers
  import opened BrokerTypes
  import opened SlotTable
  import opened Custody
  import opened Protocol

  lemma Extend(states: seq<State>, steps: seq<Step>, step: Step)
    requires Run(states, steps) && Can(states[|states| - 1], step)
    ensures Run(states + [Do(states[|states| - 1], step)], steps + [step])
  {
    var states', steps' := states + [Do(states[|states| - 1], step)], steps + [step];
    forall i | 0 <= i < |steps'| ensures Stepped(states'[i], steps'[i], states'[i + 1]) {
      if i < |steps| { assert Stepped(states[i], steps[i], states[i + 1]); }
    }
  }

  ghost predicate Reachable(s: State) {
    exists states, steps :: Run(states, steps) && states[|states| - 1] == s
  }

  lemma StartReachable()
    ensures Reachable(Start())
  {
    assert Run([Start()], []);
    assert [Start()][|[Start()]| - 1] == Start();
  }

  lemma StepReachable(s: State, step: Step)
    requires Reachable(s) && Can(s, step)
    ensures Reachable(Do(s, step))
  {
    var states, steps :| Run(states, steps) && states[|states| - 1] == s;
    Extend(states, steps, step);
    var states' := states + [Do(s, step)];
    assert Run(states', steps + [step]) && states'[|states'| - 1] == Do(s, step);
  }

  const KV := KindVersion("vpc", 1)
  const TASK := StageTask(1, "vpc", 1, "")
  const W := SubKey(0, 1)
  const K := StageKey(0, 1)

  // ---------------------------------------------------------------- one worker, one task

  ghost predicate Connected(s: State) {
    && LoopIs(s, W, HaveSlot) && W in s.tab.subs && s.tab.subs[W].kms == [KV] && s.tab.subs[W].slots == 1
    && s.at == map[] && W !in s.sent && s.tab.releases == multiset{} && s.hist.used == {} && s.unready == {} && s.fanGone == {} && s.tab.drift == NoDrift()
    && s.mail == Start().mail && s.tab.stages == map[] && s.tab.inflight == {}
  }

  ghost predicate AloneAt(at: Places, place: Place) {
    At(at, place) == [TaskFrame(TASK)] && (forall l :: l != place ==> At(at, l) == [])
  }

  lemma MoveOnly(at: Places, l: Place, l2: Place)
    requires AloneAt(at, l) && l != l2
    ensures AloneAt(Move(at, l, 0, l2), l2)
  {
    var m := Take(at, l, 0);
    assert At(at, l2) == [] && At(m, l) == [] && At(m, l2) == [];
    var m' := Put(m, l2, TaskFrame(TASK));
    assert At(m', l2) == [TaskFrame(TASK)];
    forall x | x != l2 ensures At(m', x) == [] {
      assert x != l ==> At(at, x) == [];
    }
  }

  /** The stage is registered and parked; it sits wherever `place` says, alone. */
  ghost predicate Parked(s: State, phase: Loop, place: Place) {
    && LoopIs(s, W, phase) && W in s.tab.subs && s.tab.subs[W].kms == [KV] && (!phase.Removing? ==> s.tab.subs[W].slots == 1)
    && WaiterIs(s, K, ParkedLocal) && K in s.tab.inflight && K in s.tab.stages && !s.tab.stages[K].foreign
    && s.tab.stages[K].task == TASK && W !in s.sent && s.unready == {} && s.fanGone == {} && s.tab.drift == NoDrift()
    && AloneAt(s.at, place) && s.tab.releases == multiset{} && s.tab.stages[K].gateSub == None
    && s.mail.results == map[] && s.mail.deliveries == multiset{}
  }

  lemma ConnectedReachable() returns (s: State)
    ensures Reachable(s) && Connected(s)
  {
    StartReachable();
    var s1 := DoPull(Start(), W, Connect([KV], 1));
    StepReachable(Start(), OnPull(W, Connect([KV], 1)));
    s := DoPull(s1, W, Acquire);
    StepReachable(s1, OnPull(W, Acquire));
  }

  /** Registered, and told by the gate to queue locally. */
  ghost predicate Registered(s: State) {
    && LoopIs(s, W, HaveSlot) && W in s.tab.subs && s.tab.subs[W].kms == [KV] && s.tab.subs[W].slots == 1
    && WaiterIs(s, K, Queueing) && K in s.tab.inflight && K in s.tab.stages && !s.tab.stages[K].foreign
    && s.tab.stages[K].task == TASK && W !in s.sent && s.unready == {} && s.fanGone == {} && s.tab.drift == NoDrift()
    && AloneAt(s.at, Dispatching(0)) && s.tab.releases == multiset{} && s.tab.stages[K].gateSub == None
    && s.mail.results == map[] && s.mail.deliveries == multiset{}
  }

  lemma RegisteredReachable() returns (s: State)
    ensures Reachable(s) && Registered(s) && !s.tab.stages[K].slotHeld
  {
    var s2 := ConnectedReachable();
    var s3 := DoPlace(s2, K, RegisterTask(TASK));
    StepReachable(s2, OnPlace(K, RegisterTask(TASK)));
    assert At(s3.at, Dispatching(0)) == [TaskFrame(TASK)];
    s := DoPlace(s3, K, GateLocal);
    StepReachable(s3, OnPlace(K, GateLocal));
  }

  lemma BufferedReachable() returns (s: State)
    ensures Reachable(s) && Parked(s, HaveSlot, Buffer(0, KV)) && !s.tab.stages[K].slotHeld
  {
    var s4 := RegisteredReachable();
    MoveOnly(s4.at, Dispatching(0), Buffer(0, KV));
    s := DoPlace(s4, K, Enqueue(0));
    StepReachable(s4, OnPlace(K, Enqueue(0)));
  }

  lemma PoppedReachable() returns (s: State)
    ensures Reachable(s) && Parked(s, HaveSlot, FanHand(W, 0)) && !s.tab.stages[K].slotHeld
  {
    var s5 := BufferedReachable();
    MoveOnly(s5.at, Buffer(0, KV), FanHand(W, 0));
    s := DoFan(s5, W, 0, Pop);
    StepReachable(s5, OnFan(W, 0, Pop));
  }

  lemma TakenReachable() returns (s: State)
    ensures Reachable(s) && Parked(s, Taken, LoopHand(W)) && !s.tab.stages[K].slotHeld
  {
    var s6 := PoppedReachable();
    MoveOnly(s6.at, FanHand(W, 0), LoopHand(W));
    s := DoPull(s6, W, Receive(0));
    StepReachable(s6, OnPull(W, Receive(0)));
  }

  lemma ClearedReachable() returns (s: State)
    ensures Reachable(s) && Parked(s, Cleared, LoopHand(W)) && !s.tab.stages[K].slotHeld
  {
    var s7 := TakenReachable();
    s := DoPull(s7, W, CheckReady);
    StepReachable(s7, OnPull(W, CheckReady));
  }

  lemma AttributedReachable() returns (s: State)
    ensures Reachable(s) && Parked(s, Attributed, LoopHand(W)) && s.tab.stages[K].slotHeld && s.tab.stages[K].sentBy == Some(W)
  {
    var s8 := ClearedReachable();
    s := DoSend(s8, W, AttributeTask);
    StepReachable(s8, OnSend(W, AttributeTask));
  }

  // ---------------------------------------------------------------- a stranded capacity token

  lemma DroppedReachable() returns (s: State)
    ensures Reachable(s) && CanSend(s, W, Claim) && HandKey(s, W) == K && K in s.tab.stages && K !in s.tab.inflight
    ensures s.tab.drift == NoDrift() && s.tab.releases == multiset{}
  {
    var s9 := AttributedReachable();
    var s10 := DoPark(s9, K, Timeout);
    StepReachable(s9, OnPark(K, Timeout));
    s := DoPark(s10, K, Drop);
    StepReachable(s10, OnPark(K, Drop));
  }

  /** The deadline drops the stage between attribution and the gate claim: the token is never returned. */
  lemma TokenCanBeStranded() returns (s: State)
    ensures Reachable(s) && K !in s.tab.inflight && s.tab.drift.stranded[W] == 1 && s.tab.releases[W] == 0
  {
    var s11 := DroppedReachable();
    s := DoSend(s11, W, Claim);
    StepReachable(s11, OnSend(W, Claim));
  }

  // ---------------------------------------------------------------- a token returned twice

  /** A send fails after the gate claim: the token is returned, and the stage keeps its gate. */
  lemma SendFailedReachable() returns (s: State)
    ensures Reachable(s) && LoopIs(s, W, SendFailed) && HoldsTask(s, LoopHand(W)) && HandKey(s, W) == K
    ensures W in s.tab.subs && s.tab.subs[W].slots == 1 && WaiterIs(s, K, ParkedLocal) && K in s.tab.inflight && K in s.tab.stages
    ensures s.tab.stages[K].slotHeld && s.tab.stages[K].sentBy == Some(W) && s.tab.stages[K].gateSub == Some(W)
    ensures s.tab.releases == multiset{} && s.tab.drift == NoDrift()
  {
    var s9 := AttributedReachable();
    var s10 := DoSend(s9, W, Claim);
    StepReachable(s9, OnSend(W, Claim));
    s := DoSend(s10, W, SendError);
    StepReachable(s10, OnSend(W, SendError));
  }

  lemma UnattributedReachable() returns (s: State)
    ensures Reachable(s) && LoopIs(s, W, FailBounced) && W in s.tab.subs && s.tab.subs[W].slots == 1
    ensures WaiterIs(s, K, ParkedLocal) && K in s.tab.inflight && K in s.tab.stages && s.tab.stages[K].gateSub == Some(W)
    ensures s.tab.releases == multiset{W} && s.tab.drift == NoDrift().(doubled := multiset{W})
  {
    var s11 := SendFailedReachable();
    s := DoLeave(s11, W, UnattributeTask);
    StepReachable(s11, OnLeave(W, UnattributeTask));
  }

  lemma ReturnedReachable() returns (s: State)
    ensures Reachable(s) && LoopIs(s, W, FailBounced) && W in s.tab.subs && s.tab.subs[W].slots == 0
    ensures WaiterIs(s, K, ParkedLocal) && K in s.tab.inflight && K in s.tab.stages && s.tab.stages[K].gateSub == Some(W)
    ensures s.tab.releases == multiset{} && s.tab.drift == NoDrift().(doubled := multiset{W})
  {
    var s12 := UnattributedReachable();
    s := DoEnv(s12, Release(W));
    StepReachable(s12, OnEnv(Release(W)));
  }

  /**
    Before the stream has exited, the deadline drops the stage and captures its gate token
    again: a release is pending and the channel is empty, so it takes the default arm.
   */
  lemma ReleaseCanMiss() returns (s: State)
    ensures Reachable(s) && LoopIs(s, W, FailBounced) && W in s.tab.releases && W in s.tab.subs && s.tab.subs[W].slots == 0
    ensures s.tab.drift.doubled[W] == 1
  {
    var s13 := ReturnedReachable();
    var s14 := DoPark(s13, K, Timeout);
    StepReachable(s13, OnPark(K, Timeout));
    s := DoPark(s14, K, Drop);
    StepReachable(s14, OnPark(K, Drop));
  }

  // ---------------------------------------------------------------- a stage lost with room to spare

  /** The stream leaves while its fan-in still holds the stage. */
  lemma LeavingReachable() returns (s: State)
    ensures Reachable(s) && Parked(s, Exiting(true), FanHand(W, 0))
  {
    var s6 := PoppedReachable();
    s := DoLeave(s6, W, LeaveLoop);
    StepReachable(s6, OnLeave(W, LeaveLoop));
  }

  lemma StoppedReachable() returns (s: State)
    ensures Reachable(s) && Parked(s, Removing, FanHand(W, 0))
  {
    var s7 := LeavingReachable();
    var s8 := DoLeave(s7, W, ReturnHeld);
    StepReachable(s7, OnLeave(W, ReturnHeld));
    s := DoAbandon(s8, W, CloseStop);
    StepReachable(s8, OnAbandon(W, CloseStop));
  }

  lemma BackReachable() returns (s: State)
    ensures Reachable(s) && Parked(s, Removing, FanBack(W, 0))
  {
    var s9 := StoppedReachable();
    MoveOnly(s9.at, FanHand(W, 0), FanBack(W, 0));
    s := DoFan(s9, W, 0, StopArm);
    StepReachable(s9, OnFan(W, 0, StopArm));
  }

  /**
    requeue runs with stop already closed, so its select may take the stop arm although the
    buffer is empty: the stage is in flight, its waiter parked, and it sits in no place at all.
   */
  lemma PulledStageCanBeLost() returns (s: State)
    ensures Reachable(s) && K in s.tab.inflight && WaiterIs(s, K, ParkedLocal) && K !in s.mail.results
    ensures forall l :: At(s.at, l) == []
  {
    var s10 := BackReachable();
    TakeAlone(s10.at, FanBack(W, 0));
    s := DoFan(s10, W, 0, BackStop);
    StepReachable(s10, OnFan(W, 0, BackStop));
  }

  lemma TakeAlone(at: Places, l: Place)
    requires AloneAt(at, l)
    ensures forall x :: At(Take(at, l, 0), x) == []
  {
    forall x ensures At(Take(at, l, 0), x) == [] {
      assert x != l ==> At(at, x) == [];
    }
  }

  // ---------------------------------------------------------------- a genuine result that loses

  lemma ClaimedReachable() returns (s: State)
    ensures Reachable(s) && LoopIs(s, W, Claimed) && HoldsTask(s, LoopHand(W)) && HeldTask(s, LoopHand(W)) == TASK && Waiting(s)
    ensures W !in s.sent
  {
    var s9 := AttributedReachable();
    s := DoSend(s9, W, Claim);
    StepReachable(s9, OnSend(W, Claim));
  }

  ghost predicate Waiting(s: State) {
    && WaiterIs(s, K, ParkedLocal) && K in s.tab.inflight && K in s.tab.stages
    && s.mail.results == map[] && s.mail.deliveries == multiset{}
  }

  lemma SentReachable() returns (s: State)
    ensures Reachable(s) && LoopIs(s, W, NeedSlot) && Waiting(s) && SentSlice(s, W) == [TASK.leaseToken]
  {
    var s10 := ClaimedReachable();
    s := DoSend(s10, W, SendOk);
    StepReachable(s10, OnSend(W, SendOk));
  }

  /** The stream drops; its abandon has looked the token up and not yet sent. */
  lemma AbandoningReachable() returns (s: State)
    ensures Reachable(s) && LoopIs(s, W, AbandonSending(0)) && Waiting(s) && SentSlice(s, W) == [TASK.leaseToken]
  {
    var s11 := SentReachable();
    var s12 := DoLeave(s11, W, LeaveLoop);
    StepReachable(s11, OnLeave(W, LeaveLoop));
    var s13 := DoLeave(s12, W, ReturnHeld);
    StepReachable(s12, OnLeave(W, ReturnHeld));
    s := DoAbandon(s13, W, AbandonLook);
    StepReachable(s13, OnAbandon(W, AbandonLook));
  }

  /** The worker's own Complete resolves the stage, yet its waiter receives the synthetic failure. */
  lemma GenuineResultCanLose(sc: StageComplete) returns (s: State)
    requires sc.leaseToken == TASK.leaseToken
    ensures Reachable(s) && sc in s.hist.said && WaiterIs(s, K, Dropping(Returned(StreamDropped(TASK.leaseToken))))
  {
    var s14 := AbandoningReachable();
    var s15 := DoEnv(s14, WorkerComplete(W, sc));
    StepReachable(s14, OnEnv(WorkerComplete(W, sc)));
    var s16 := DoAbandon(s15, W, AbandonSend);
    StepReachable(s15, OnAbandon(W, AbandonSend));
    s := DoPark(s16, K, TakeResult);
    StepReachable(s16, OnPark(K, TakeResult));
  }

  // ---------------------------------------------------------------- a departure onPeerGone misses

  const P := PeerKey(0, 7)

  lemma PushedReachable() returns (s: State)
    ensures Reachable(s) && WaiterIs(s, K, Pushed(P)) && K in s.tab.inflight && s.peers == map[P := Peer(1, false, false)]
    ensures s.mail.pushedTo == map[] && s.mail.wakes == multiset{} && s.mail.results == map[]
  {
    StartReachable();
    var s1 := DoRoute(Start(), P, Publish(1));
    StepReachable(Start(), OnRoute(P, Publish(1)));
    var s2 := DoPlace(s1, K, RegisterTask(TASK));
    StepReachable(s1, OnPlace(K, RegisterTask(TASK)));
    var s3 := DoPlace(s2, K, GateRemote);
    StepReachable(s2, OnPlace(K, GateRemote));
    s := DoPlace(s3, K, Push(P, 0));
    StepReachable(s3, OnPlace(K, Push(P, 0)));
  }

  /**
    The peer departs between the push and the record: onPeerGone has looked once and for all,
    collected nothing, and left no value; only the peer-context arm can still wake the waiter.
   */
  lemma ScanCanMissThePush() returns (s: State)
    ensures Reachable(s) && WaiterIs(s, K, ParkedRemote(P)) && K in s.tab.inflight && P in s.peers && s.peers[P].scanned
    ensures K !in s.mail.wakes && K !in s.mail.results && CanPark(s, K, PeerGoneArm)
  {
    var s4 := PushedReachable();
    var s5 := DoRoute(s4, P, Cancel);
    StepReachable(s4, OnRoute(P, Cancel));
    assert PushedTo(s5, P) == {};
    var s6 := DoRoute(s5, P, Scan);
    StepReachable(s5, OnRoute(P, Scan));
    s := DoPlace(s6, K, RecordPush);
    StepReachable(s6, OnPlace(K, RecordPush));
  }
}
