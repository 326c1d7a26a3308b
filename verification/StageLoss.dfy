/**
  Exactly when a stage that this broker owns can disappear from every place while it is
  still in flight: when a fan-in's requeue takes the stop arm, and never otherwise.
 */
module StageLoss {
  import opened Wrappers
  import opened BrokerTypes
  import opened SlotTable
  import opened Custody
  import opened Protocol
  import opened PlaceInvariant

  /** A place of this broker between its buffer and its workers. */
  predicate LocalPlace(l: Place, b: nat) {
    match l
    case Buffer(b', _) => b' == b
    case FanHand(w, _) => w.broker == b
    case FanBack(w, _) => w.broker == b
    case LoopHand(w) => w.broker == b
    case SentTo(w) => w.broker == b
    case _ => false
  }

  /** A local stage sits at l before the step and is still in flight after it. */
  ghost predicate Owned(s: State, s': State, l: Place, b: nat, t: StageTask) {
    var k := StageKey(b, t.leaseToken);
    LocalPlace(l, b) && In(s.at, l, TaskFrame(t)) && k in s.tab.stages && !s.tab.stages[k].foreign
    && k in s'.tab.inflight && k in s.tab.inflight
  }

  ghost predicate Present(at: Places, t: StageTask) {
    exists l :: In(at, l, TaskFrame(t))
  }

  lemma TakenOrElsewhere(at: Places, l: Place, i: nat, l2: Place, l0: Place, t: StageTask)
    requires Unique(at) && IsTask(at, l, i) && In(at, l0, TaskFrame(t))
    ensures Present(Move(at, l, i, l2), t)
    ensures l0 != l ==> Present(Take(at, l, i), t)
  {
    MoveMoves(at, l, i, l2);
    TakeRemoves(at, l, i);
    if t.leaseToken == At(at, l)[i].task.leaseToken {
      OnePlace(at, l, At(at, l)[i].task, l0, t);
      assert In(Move(at, l, i, l2), l2, TaskFrame(t));
    } else {
      assert In(Move(at, l, i, l2), l0, TaskFrame(t));
    }
    if l0 != l { assert In(Take(at, l, i), l0, TaskFrame(t)); }
  }

  lemma HandIs(s: State, w: SubKey, t: StageTask)
    requires HandInv(s) && In(s.at, LoopHand(w), TaskFrame(t))
    ensures HoldsTask(s, LoopHand(w)) && HeldTask(s, LoopHand(w)) == t
  {
    assert HandOk(s.at, s.loops, w);
  }

  lemma PullKeepsOwned(s: State, w: SubKey, a: PullAct, l: Place, b: nat, t: StageTask)
    requires PlaceInv(s) && CanPull(s, w, a) && Owned(s, DoPull(s, w, a), l, b, t)
    ensures Present(DoPull(s, w, a).at, t)
  {
    if l == LoopHand(w) { HandIs(s, w, t); }
    match a
    case Receive(i) => TakenOrElsewhere(s.at, FanHand(w, i), 0, LoopHand(w), l, t);
    case BounceLook => TakenOrElsewhere(s.at, LoopHand(w), 0, SentTo(w), l, t);
    case BounceSend => TakenOrElsewhere(s.at, LoopHand(w), 0, Buffer(w.broker, TaskKindVer(HeldTask(s, LoopHand(w)))), l, t);
    case Connect(_, _) => assert In(DoPull(s, w, a).at, l, TaskFrame(t));
    case Acquire => assert In(DoPull(s, w, a).at, l, TaskFrame(t));
    case CheckReady => assert In(DoPull(s, w, a).at, l, TaskFrame(t));
  }

  lemma SendKeepsOwned(s: State, w: SubKey, a: SendAct, l: Place, b: nat, t: StageTask)
    requires PlaceInv(s) && CanSend(s, w, a) && Owned(s, DoSend(s, w, a), l, b, t)
    ensures Present(DoSend(s, w, a).at, t)
  {
    if l == LoopHand(w) { HandIs(s, w, t); }
    match a
    case AttributeTask => TakenOrElsewhere(s.at, LoopHand(w), 0, SentTo(w), l, t);
    case SendOk => TakenOrElsewhere(s.at, LoopHand(w), 0, SentTo(w), l, t);
    case Claim => assert In(DoSend(s, w, a).at, l, TaskFrame(t));
    case SendError => assert In(DoSend(s, w, a).at, l, TaskFrame(t));
    case Compact => assert In(DoSend(s, w, a).at, l, TaskFrame(t));
  }

  lemma LeaveKeepsOwned(s: State, w: SubKey, a: LeaveAct, l: Place, b: nat, t: StageTask)
    requires PlaceInv(s) && CanLeave(s, w, a) && Owned(s, DoLeave(s, w, a), l, b, t)
    ensures Present(DoLeave(s, w, a).at, t)
  {
    if l == LoopHand(w) { HandIs(s, w, t); }
    if a.FailLook? || a.FailSend? {
      TakenOrElsewhere(s.at, LoopHand(w), 0, Buffer(w.broker, TaskKindVer(HeldTask(s, LoopHand(w)))), l, t);
    } else {
      assert In(DoLeave(s, w, a).at, l, TaskFrame(t));
    }
  }

  lemma FanKeepsOwned(s: State, w: SubKey, i: nat, a: FanAct, l: Place, b: nat, t: StageTask)
    requires PlaceInv(s) && CanFan(s, w, i, a) && Owned(s, DoFan(s, w, i, a), l, b, t)
    requires |At(s.at, FanHand(w, i))| <= 1 && |At(s.at, FanBack(w, i))| <= 1
    ensures Present(DoFan(s, w, i, a).at, t) <==> !(a.BackStop? && l == FanBack(w, i))
  {
    assert Present(s.at, t);
    match a
    case Pop => TakenOrElsewhere(s.at, Buffer(w.broker, s.tab.subs[w].kms[i]), 0, FanHand(w, i), l, t);
    case StopArm => TakenOrElsewhere(s.at, FanHand(w, i), 0, FanBack(w, i), l, t);
    case BackSend => TakenOrElsewhere(s.at, FanBack(w, i), 0, Buffer(w.broker, TaskKindVer(HeldTask(s, FanBack(w, i)))), l, t);
    case BackStop =>
      TakenOrElsewhere(s.at, FanBack(w, i), 0, FanBack(w, i), l, t);
      TakeRemoves(s.at, FanBack(w, i), 0);
    case Quit =>
  }

  lemma PlaceKeepsOwned(s: State, k: StageKey, a: PlaceAct, l: Place, b: nat, t: StageTask)
    requires PlaceInv(s) && CanPlace(s, k, a) && Owned(s, DoPlace(s, k, a), l, b, t)
    ensures Present(DoPlace(s, k, a).at, t)
  {
    var home := Dispatching(k.broker);
    if a.RegisterTask? {
      PutIn(s.at, home, TaskFrame(a.task));
      assert In(DoPlace(s, k, a).at, l, TaskFrame(t));
    } else if a.Push? {
      TakenOrElsewhere(s.at, home, a.i, OutQueue(a.peer), l, t);
    } else if a.Enqueue? {
      TakenOrElsewhere(s.at, home, a.i, Buffer(k.broker, TaskKindVer(At(s.at, home)[a.i].task)), l, t);
    } else if a.GiveUp? {
      TakenOrElsewhere(s.at, home, a.i, home, l, t);
    } else {
      assert In(DoPlace(s, k, a).at, l, TaskFrame(t));
    }
  }

  lemma ForeignKeepsOwned(s: State, k: StageKey, a: ForeignAct, l: Place, b: nat, t: StageTask)
    requires PlaceInv(s) && CanForeign(s, k, a) && Owned(s, DoForeign(s, k, a), l, b, t)
    ensures Present(DoForeign(s, k, a).at, t)
  {
    assert Present(s.at, t);
    if a.ForeignEnqueue? {
      TakenOrElsewhere(s.at, RouteHand(a.peer), a.i, Buffer(k.broker, TaskKindVer(At(s.at, RouteHand(a.peer))[a.i].task)), l, t);
    } else if a.ForwardHome? {
      PutIn(s.at, OutQueue(s.mail.waiters[k].peer), CompleteFrame(s.mail.waiters[k].sc));
      assert In(DoForeign(s, k, a).at, l, TaskFrame(t));
    }
  }

  lemma RouteKeepsOwned(s: State, p: PeerKey, a: RouteAct, l: Place, b: nat, t: StageTask)
    requires PlaceInv(s) && CanRoute(s, p, a) && Owned(s, DoRoute(s, p, a), l, b, t)
    ensures Present(DoRoute(s, p, a).at, t)
  {
    if a.Transmit? {
      TakeIn(s.at, OutQueue(p), 0);
      PutIn(Take(s.at, OutQueue(p), 0), Wire(p), At(s.at, OutQueue(p))[0]);
    } else if a.LoseFrame? || a.ReceiveComplete? {
      TakeIn(s.at, Wire(p), 0);
    } else if a.ReceiveTask? {
      TakeIn(s.at, Wire(p), 0);
      PutIn(Take(s.at, Wire(p), 0), RouteHand(a.at), At(s.at, Wire(p))[0]);
    }
    assert In(DoRoute(s, p, a).at, l, TaskFrame(t));
  }

  // ---------------------------------------------------------------- fan-in hands hold at most one stage

  ghost predicate FanInv(s: State) {
    forall w, i: nat :: |At(s.at, FanHand(w, i))| + |At(s.at, FanBack(w, i))| <= 1
  }

  lemma FanInvByFan(s: State, w: SubKey, i: nat, a: FanAct)
    requires FanInv(s) && CanFan(s, w, i, a)
    ensures FanInv(DoFan(s, w, i, a))
  {
    var s' := DoFan(s, w, i, a);
    forall x, j: nat ensures |At(s'.at, FanHand(x, j))| + |At(s'.at, FanBack(x, j))| <= 1 {
      assert |At(s.at, FanHand(x, j))| + |At(s.at, FanBack(x, j))| <= 1;
      assert |At(s.at, FanHand(w, i))| + |At(s.at, FanBack(w, i))| <= 1;
    }
  }

  ghost predicate FansOnlyShrink(s: State, s': State) {
    forall w, i: nat :: |At(s'.at, FanHand(w, i))| <= |At(s.at, FanHand(w, i))| && At(s'.at, FanBack(w, i)) == At(s.at, FanBack(w, i))
  }

  lemma PullFans(s: State, w: SubKey, a: PullAct)
    requires CanPull(s, w, a)
    ensures FansOnlyShrink(s, DoPull(s, w, a))
  {
  }

  lemma SendFans(s: State, w: SubKey, a: SendAct)
    requires CanSend(s, w, a)
    ensures FansOnlyShrink(s, DoSend(s, w, a))
  {
  }

  lemma LeaveFans(s: State, w: SubKey, a: LeaveAct)
    requires CanLeave(s, w, a)
    ensures FansOnlyShrink(s, DoLeave(s, w, a))
  {
  }

  lemma PlaceFans(s: State, k: StageKey, a: PlaceAct)
    requires CanPlace(s, k, a)
    ensures FansOnlyShrink(s, DoPlace(s, k, a))
  {
  }

  lemma ForeignFans(s: State, k: StageKey, a: ForeignAct)
    requires CanForeign(s, k, a)
    ensures FansOnlyShrink(s, DoForeign(s, k, a))
  {
  }

  lemma RouteFans(s: State, p: PeerKey, a: RouteAct)
    requires CanRoute(s, p, a)
    ensures FansOnlyShrink(s, DoRoute(s, p, a))
  {
  }

  lemma StepFans(s: State, step: Step)
    requires Can(s, step) && !step.OnFan?
    ensures FansOnlyShrink(s, Do(s, step))
  {
    match step
    case OnPull(w, a) => PullFans(s, w, a);
    case OnSend(w, a) => SendFans(s, w, a);
    case OnLeave(w, a) => LeaveFans(s, w, a);
    case OnPlace(k, a) => PlaceFans(s, k, a);
    case OnForeign(k, a) => ForeignFans(s, k, a);
    case OnRoute(p, a) => RouteFans(s, p, a);
    case OnAbandon(_, _) =>
    case OnPark(_, _) =>
    case OnEnv(_) =>
  }

  lemma FanInvKept(s: State, step: Step)
    requires FanInv(s) && Can(s, step)
    ensures FanInv(Do(s, step))
  {
    if step.OnFan? { FanInvByFan(s, step.sub, step.i, step.fan); }
    else {
      StepFans(s, step);
      forall w, i: nat ensures |At(Do(s, step).at, FanHand(w, i))| + |At(Do(s, step).at, FanBack(w, i))| <= 1 {
        assert |At(s.at, FanHand(w, i))| + |At(s.at, FanBack(w, i))| <= 1;
      }
    }
  }

  lemma {:induction false} RunFanInv(states: seq<State>, steps: seq<Step>, i: nat)
    requires Run(states, steps) && i < |states|
    ensures PlaceInv(states[i]) && FanInv(states[i])
  {
    if i > 0 {
      RunFanInv(states, steps, i - 1);
      assert Stepped(states[i - 1], steps[i - 1], states[i]);
      PlaceInvKept(states[i - 1], steps[i - 1]);
      FanInvKept(states[i - 1], steps[i - 1]);
    }
  }

  /**
    A stage this broker owns, anywhere between its buffer and a worker, and still in flight
    after a step of a run, is lost by that step if and only if the step is a fan-in taking
    the stop arm of requeue while it holds that very stage.
   */
  lemma LostExactlyByStopArm(states: seq<State>, steps: seq<Step>, i: nat, l: Place, b: nat, t: StageTask)
    requires Run(states, steps) && i < |steps| && Owned(states[i], states[i + 1], l, b, t)
    ensures Present(states[i + 1].at, t) <==>
            !(steps[i].OnFan? && steps[i].fan.BackStop? && l == FanBack(steps[i].sub, steps[i].i))
  {
    RunFanInv(states, steps, i);
    var s, step := states[i], steps[i];
    assert Stepped(s, step, states[i + 1]);
    match step
    case OnFan(w, j, a) =>
      assert |At(s.at, FanHand(w, j))| + |At(s.at, FanBack(w, j))| <= 1;
      FanKeepsOwned(s, w, j, a, l, b, t);
    case OnPull(w, a) => PullKeepsOwned(s, w, a, l, b, t);
    case OnSend(w, a) => SendKeepsOwned(s, w, a, l, b, t);
    case OnLeave(w, a) => LeaveKeepsOwned(s, w, a, l, b, t);
    case OnPlace(k, a) => PlaceKeepsOwned(s, k, a, l, b, t);
    case OnAbandon(_, _) => assert In(states[i + 1].at, l, TaskFrame(t));
    case OnPark(_, _) => assert In(states[i + 1].at, l, TaskFrame(t));
    case OnForeign(k, a) => ForeignKeepsOwned(s, k, a, l, b, t);
    case OnRoute(p, a) => RouteKeepsOwned(s, p, a, l, b, t);
    case OnEnv(_) => assert In(states[i + 1].at, l, TaskFrame(t));
  }
}
