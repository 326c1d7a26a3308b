/**
  The history of handoffs to workers: each one was preceded by a readiness check that
  passed, on the same stream and for the same task, and no lease token is handed over
  twice.
 */
module Handoff {
  import opened Wrappers
  import opened BrokerTypes
  import opened SlotTable
  import opened Custody
  import opened Protocol
  import opened PlaceInvariant
  import opened WakeInvariant

  /** Past the readiness guard, up to the send. */
  predicate Passed(l: Loop) {
    l.Cleared? || l.Attributed? || l.Claimed?
  }

  ghost predicate CheckedOk(s: State, w: SubKey) {
    forall t :: In(s.at, LoopHand(w), TaskFrame(t)) && w in s.loops && Passed(s.loops[w])
                ==> ReadyChecked(w, t, true) in s.hist.log
  }

  ghost predicate Prechecked(log: seq<Event>) {
    forall j :: 0 <= j < |log| && log[j].HandedOver? ==> ReadyChecked(log[j].sub, log[j].task, true) in log[..j]
  }

  ghost predicate HandedOnce(log: seq<Event>) {
    forall i, j | 0 <= i < |log| && 0 <= j < |log| && log[i].HandedOver? && log[j].HandedOver?
      :: log[i].task.leaseToken == log[j].task.leaseToken ==> i == j
  }

  ghost predicate HandedAreSent(s: State) {
    forall w, t :: HandedOver(w, t) in s.hist.log ==> In(s.at, SentTo(w), TaskFrame(t))
  }

  ghost predicate HandoffInv(s: State) {
    (forall w :: CheckedOk(s, w)) && Prechecked(s.hist.log) && HandedOnce(s.hist.log) && HandedAreSent(s)
  }

  lemma HandoffFrame(s: State, s': State)
    requires HandoffInv(s) && s'.hist.log == s.hist.log
    requires forall w :: At(s'.at, SentTo(w)) == At(s.at, SentTo(w))
    requires forall w :: HandSame(s, s', w)
    ensures HandoffInv(s')
  {
    forall w ensures CheckedOk(s', w) {
      assert CheckedOk(s, w) && HandSame(s, s', w);
    }
    forall w, t | HandedOver(w, t) in s'.hist.log ensures In(s'.at, SentTo(w), TaskFrame(t)) {
      assert In(s.at, SentTo(w), TaskFrame(t));
    }
  }

  /** The loop of w is not past its guard, or it is with the stage it already held. */
  ghost predicate HandSame(s: State, s': State, w: SubKey) {
    w in s'.loops && Passed(s'.loops[w]) ==>
      At(s'.at, LoopHand(w)) == At(s.at, LoopHand(w)) && w in s.loops && Passed(s.loops[w])
  }

  lemma PullHandoff(s: State, w: SubKey, a: PullAct)
    requires HandoffInv(s) && HandInv(s) && CanPull(s, w, a)
    ensures HandoffInv(DoPull(s, w, a))
  {
    var s' := DoPull(s, w, a);
    if a.CheckReady? {
      var log := s.hist.log;
      forall x ensures CheckedOk(s', x) {
        assert CheckedOk(s, x) && HandOk(s.at, s.loops, x);
      }
      forall j | 0 <= j < |log| ensures s'.hist.log[..j] == log[..j] {
      }
    } else {
      PullNeverSleeps(s, w, a);
      PullHandSame(s, w, a);
      HandoffFrame(s, s');
    }
  }

  lemma PullHandSame(s: State, w: SubKey, a: PullAct)
    requires CanPull(s, w, a) && !a.CheckReady?
    ensures DoPull(s, w, a).hist.log == s.hist.log && forall x :: HandSame(s, DoPull(s, w, a), x)
  {
  }

  /** What the loop holds was never handed over before: it would have to sit in two places. */
  lemma HeldWasNotSent(s: State, w: SubKey, j: nat)
    requires HandoffInv(s) && PlaceInv(s) && HoldsTask(s, LoopHand(w)) && j < |s.hist.log| && s.hist.log[j].HandedOver?
    ensures s.hist.log[j].task.leaseToken != HeldTask(s, LoopHand(w)).leaseToken
  {
    var e, task := s.hist.log[j], HeldTask(s, LoopHand(w));
    assert e == HandedOver(e.sub, e.task) && e in s.hist.log;
    assert In(s.at, SentTo(e.sub), TaskFrame(e.task)) && In(s.at, LoopHand(w), TaskFrame(task));
    if e.task.leaseToken == task.leaseToken {
      OnePlace(s.at, SentTo(e.sub), e.task, LoopHand(w), task);
    }
  }

  /** Appending the handoff of a token handed over for the first time, after a passed check for it. */
  lemma LogHandoff(log: seq<Event>, w: SubKey, task: StageTask)
    requires Prechecked(log) && HandedOnce(log) && ReadyChecked(w, task, true) in log
    requires forall j | 0 <= j < |log| && log[j].HandedOver? :: log[j].task.leaseToken != task.leaseToken
    ensures Prechecked(log + [HandedOver(w, task)]) && HandedOnce(log + [HandedOver(w, task)])
  {
    var log' := log + [HandedOver(w, task)];
    forall j | 0 <= j <= |log| ensures log'[..j] == log[..j] {
    }
    assert log[..|log|] == log;
  }

  lemma SendOkSent(s: State, w: SubKey)
    requires HandedAreSent(s) && PlaceInv(s) && CanSend(s, w, SendOk)
    ensures HandedAreSent(DoSend(s, w, SendOk))
  {
    var s', log := DoSend(s, w, SendOk), s.hist.log;
    MoveMoves(s.at, LoopHand(w), 0, SentTo(w));
    forall x, t | HandedOver(x, t) in s'.hist.log ensures In(s'.at, SentTo(x), TaskFrame(t)) {
      if HandedOver(x, t) in log { assert In(s.at, SentTo(x), TaskFrame(t)); }
    }
  }

  lemma SendOkChecked(s: State, w: SubKey, x: SubKey)
    requires CheckedOk(s, x) && CanSend(s, w, SendOk)
    ensures CheckedOk(DoSend(s, w, SendOk), x)
  {
  }

  lemma SendOkHandoff(s: State, w: SubKey)
    requires HandoffInv(s) && PlaceInv(s) && CanSend(s, w, SendOk)
    ensures HandoffInv(DoSend(s, w, SendOk))
  {
    var task, log := HeldTask(s, LoopHand(w)), s.hist.log;
    SendOkSent(s, w);
    forall x ensures CheckedOk(DoSend(s, w, SendOk), x) {
      assert CheckedOk(s, x);
      SendOkChecked(s, w, x);
    }
    forall j | 0 <= j < |log| && log[j].HandedOver? ensures log[j].task.leaseToken != task.leaseToken {
      HeldWasNotSent(s, w, j);
    }
    assert CheckedOk(s, w) && In(s.at, LoopHand(w), TaskFrame(task));
    LogHandoff(log, w, task);
  }

  lemma SendHandSame(s: State, w: SubKey, a: SendAct)
    requires CanSend(s, w, a) && !a.SendOk?
    ensures DoSend(s, w, a).hist.log == s.hist.log && forall x :: HandSame(s, DoSend(s, w, a), x)
    ensures forall x :: At(DoSend(s, w, a).at, SentTo(x)) == At(s.at, SentTo(x))
  {
  }

  lemma LeaveHandSame(s: State, w: SubKey, a: LeaveAct)
    requires CanLeave(s, w, a)
    ensures DoLeave(s, w, a).hist.log == s.hist.log && forall x :: HandSame(s, DoLeave(s, w, a), x)
  {
  }

  lemma AbandonHandSame(s: State, w: SubKey, a: AbandonAct)
    requires CanAbandon(s, w, a)
    ensures DoAbandon(s, w, a).hist.log == s.hist.log && forall x :: HandSame(s, DoAbandon(s, w, a), x)
  {
  }

  lemma StreamHandoff(s: State, step: Step)
    requires HandoffInv(s) && PlaceInv(s) && Can(s, step) && (step.OnPull? || step.OnSend? || step.OnLeave? || step.OnAbandon?)
    ensures HandoffInv(Do(s, step))
  {
    match step
    case OnPull(w, a) => PullHandoff(s, w, a);
    case OnSend(w, a) =>
      if a.SendOk? { SendOkHandoff(s, w); } else { SendHandSame(s, w, a); HandoffFrame(s, DoSend(s, w, a)); }
    case OnLeave(w, a) => LeaveNeverSleeps(s, w, a); LeaveHandSame(s, w, a); HandoffFrame(s, DoLeave(s, w, a));
    case OnAbandon(w, a) => AbandonNeverSleeps(s, w, a); AbandonHandSame(s, w, a); HandoffFrame(s, DoAbandon(s, w, a));
  }

  lemma FanHandoff(s: State, w: SubKey, i: nat, a: FanAct)
    requires HandoffInv(s) && PlaceInv(s) && CanFan(s, w, i, a)
    ensures HandoffInv(DoFan(s, w, i, a))
  {
    FanNeverSleeps(s, w, i, a);
    forall x ensures At(DoFan(s, w, i, a).at, LoopHand(x)) == At(s.at, LoopHand(x)) { FanHands(s, w, i, a, x); }
    HandoffFrame(s, DoFan(s, w, i, a));
  }

  lemma ParkHandoff(s: State, k: StageKey, a: ParkAct)
    requires HandoffInv(s) && PlaceInv(s) && CanPark(s, k, a)
    ensures HandoffInv(DoPark(s, k, a))
  {
    ParkNeverSleeps(s, k, a);
    HandoffFrame(s, DoPark(s, k, a));
  }

  lemma ForeignHandoff(s: State, k: StageKey, a: ForeignAct)
    requires HandoffInv(s) && PlaceInv(s) && CanForeign(s, k, a)
    ensures HandoffInv(DoForeign(s, k, a))
  {
    ForeignNeverSleeps(s, k, a);
    forall x ensures At(DoForeign(s, k, a).at, LoopHand(x)) == At(s.at, LoopHand(x)) { ForeignHands(s, k, a, x); }
    HandoffFrame(s, DoForeign(s, k, a));
  }

  lemma EnvHandoff(s: State, a: EnvAct)
    requires HandoffInv(s) && PlaceInv(s) && CanEnv(s, a)
    ensures HandoffInv(DoEnv(s, a))
  {
    EnvNeverSleeps(s, a);
    HandoffFrame(s, DoEnv(s, a));
  }

  lemma PlaceHandoff(s: State, k: StageKey, a: PlaceAct)
    requires HandoffInv(s) && PlaceInv(s) && CanPlace(s, k, a)
    ensures HandoffInv(DoPlace(s, k, a))
  {
    PlaceNeverSleeps(s, k, a);
    forall x ensures At(DoPlace(s, k, a).at, LoopHand(x)) == At(s.at, LoopHand(x)) { PlaceHands(s, k, a, x); }
    HandoffFrame(s, DoPlace(s, k, a));
  }

  lemma RouteHandoff(s: State, p: PeerKey, a: RouteAct)
    requires HandoffInv(s) && PlaceInv(s) && CanRoute(s, p, a)
    ensures HandoffInv(DoRoute(s, p, a))
  {
    RouteNeverSleeps(s, p, a);
    forall x ensures At(DoRoute(s, p, a).at, LoopHand(x)) == At(s.at, LoopHand(x)) { RouteHands(s, p, a, x); }
    HandoffFrame(s, DoRoute(s, p, a));
  }

  /** Every step of the protocol keeps the history of handoffs. */
  lemma HandoffInvKept(s: State, step: Step)
    requires HandoffInv(s) && PlaceInv(s) && Can(s, step)
    ensures HandoffInv(Do(s, step))
  {
    match step
    case OnPlace(k, a) => PlaceHandoff(s, k, a);
    case OnRoute(p, a) => RouteHandoff(s, p, a);
    case OnFan(w, i, a) => FanHandoff(s, w, i, a);
    case OnPark(k, a) => ParkHandoff(s, k, a);
    case OnForeign(k, a) => ForeignHandoff(s, k, a);
    case OnEnv(a) => EnvHandoff(s, a);
    case _ => StreamHandoff(s, step);
  }
}
