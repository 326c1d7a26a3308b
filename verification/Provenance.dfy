/**
  Where results come from. Every value a waiter can receive is a Complete that some
  worker sent for that very token, or one of the broker's own synthetic failures, which
  are never terminal and never empty of an error message.
 */
module Provenance {
  import opened BrokerTypes
  import opened SlotTable
  import opened Custody
  import opened Protocol

  predicate Genuine(said: set<StageComplete>, sc: StageComplete, tok: Token) {
    sc in said && sc.leaseToken == tok
  }

  predicate Synthetic(sc: StageComplete) {
    !sc.terminal && sc.errorMessage != ""
  }

  predicate Fair(said: set<StageComplete>, sc: StageComplete, tok: Token) {
    Genuine(said, sc, tok) || Synthetic(sc)
  }

  ghost predicate WaiterFair(said: set<StageComplete>, k: StageKey, x: Waiter) {
    match x
    case ForwarderTook(_, sc) => Fair(said, sc, k.token)
    case Dropping(Returned(sc)) => Fair(said, sc, k.token)
    case Done(Returned(sc)) => Fair(said, sc, k.token)
    case _ => true
  }

  ghost predicate MailFair(m: Mail, said: set<StageComplete>) {
    && (forall k | k in m.results :: Fair(said, m.results[k], k.token))
    && (forall d | d in m.deliveries :: Fair(said, d.sc, d.key.token))
    && (forall k | k in m.waiters :: WaiterFair(said, k, m.waiters[k]))
  }

  ghost predicate FramesFair(at: Places, said: set<StageComplete>) {
    forall l, sc :: In(at, l, CompleteFrame(sc)) ==> Fair(said, sc, sc.leaseToken)
  }

  ghost predicate MailInv(s: State) {
    MailFair(s.mail, s.hist.said) && FramesFair(s.at, s.hist.said)
  }

  // ---------------------------------------------------------------- frames

  /** No Complete frame appears that was not on some place already. */
  ghost predicate NoNewFrame(at: Places, at': Places) {
    forall l, sc :: In(at', l, CompleteFrame(sc)) ==> (exists l0 :: In(at, l0, CompleteFrame(sc)))
  }

  lemma MoveFrames(at: Places, l: Place, i: nat, l2: Place)
    requires i < |At(at, l)|
    ensures NoNewFrame(at, Move(at, l, i, l2)) && NoNewFrame(at, Take(at, l, i)) && NoNewFrame(at, at)
  {
    MoveIn(at, l, i, l2);
    TakeIn(at, l, i);
  }

  lemma PullFrames(s: State, w: SubKey, a: PullAct)
    requires CanPull(s, w, a)
    ensures NoNewFrame(s.at, DoPull(s, w, a).at)
  {
    match a
    case Receive(i) => MoveFrames(s.at, FanHand(w, i), 0, LoopHand(w));
    case BounceLook => MoveFrames(s.at, LoopHand(w), 0, LoopHand(w));
    case BounceSend => MoveFrames(s.at, LoopHand(w), 0, Buffer(w.broker, TaskKindVer(HeldTask(s, LoopHand(w)))));
    case Connect(_, _) =>
    case Acquire =>
    case CheckReady =>
  }

  lemma SendFrames(s: State, w: SubKey, a: SendAct)
    requires CanSend(s, w, a)
    ensures NoNewFrame(s.at, DoSend(s, w, a).at)
  {
    if a.AttributeTask? || a.SendOk? { MoveFrames(s.at, LoopHand(w), 0, SentTo(w)); }
  }

  lemma LeaveFrames(s: State, w: SubKey, a: LeaveAct)
    requires CanLeave(s, w, a)
    ensures NoNewFrame(s.at, DoLeave(s, w, a).at)
  {
    if a.FailLook? || a.FailSend? {
      MoveFrames(s.at, LoopHand(w), 0, Buffer(w.broker, TaskKindVer(HeldTask(s, LoopHand(w)))));
    }
  }

  lemma FanFrames(s: State, w: SubKey, i: nat, a: FanAct)
    requires CanFan(s, w, i, a)
    ensures NoNewFrame(s.at, DoFan(s, w, i, a).at)
  {
    match a
    case Pop => MoveFrames(s.at, Buffer(w.broker, s.tab.subs[w].kms[i]), 0, FanHand(w, i));
    case StopArm => MoveFrames(s.at, FanHand(w, i), 0, FanBack(w, i));
    case BackSend => MoveFrames(s.at, FanBack(w, i), 0, Buffer(w.broker, TaskKindVer(HeldTask(s, FanBack(w, i)))));
    case BackStop => MoveFrames(s.at, FanBack(w, i), 0, FanBack(w, i));
    case Quit =>
  }

  lemma PlaceFrames(s: State, k: StageKey, a: PlaceAct)
    requires CanPlace(s, k, a)
    ensures NoNewFrame(s.at, DoPlace(s, k, a).at)
  {
    var home := Dispatching(k.broker);
    match a
    case RegisterTask(task) => PutIn(s.at, home, TaskFrame(task));
    case Push(p, i) => MoveFrames(s.at, home, i, OutQueue(p));
    case Enqueue(i) => MoveFrames(s.at, home, i, Buffer(k.broker, TaskKindVer(At(s.at, home)[i].task)));
    case GiveUp(i) => MoveFrames(s.at, home, i, home);
    case _ =>
  }

  lemma FramesKept(at: Places, at': Places, said: set<StageComplete>, said': set<StageComplete>)
    requires FramesFair(at, said) && NoNewFrame(at, at') && said <= said'
    ensures FramesFair(at', said')
  {
  }

  // ---------------------------------------------------------------- mail

  lemma MailGrows(m: Mail, said: set<StageComplete>, sc: StageComplete)
    requires MailFair(m, said)
    ensures MailFair(m, said + {sc})
  {
  }

  /** A step that leaves the mail alone and puts no new frame anywhere. */
  lemma MailUntouched(s: State, s': State)
    requires MailInv(s) && s'.mail == s.mail && s'.hist.said == s.hist.said && NoNewFrame(s.at, s'.at)
    ensures MailInv(s')
  {
    FramesKept(s.at, s'.at, s.hist.said, s.hist.said);
  }

  lemma PullMail(s: State, w: SubKey, a: PullAct)
    requires MailInv(s) && CanPull(s, w, a)
    ensures MailInv(DoPull(s, w, a))
  {
    PullFrames(s, w, a);
    MailUntouched(s, DoPull(s, w, a));
  }

  lemma SendMail(s: State, w: SubKey, a: SendAct)
    requires MailInv(s) && CanSend(s, w, a)
    ensures MailInv(DoSend(s, w, a))
  {
    SendFrames(s, w, a);
    MailUntouched(s, DoSend(s, w, a));
  }

  lemma LeaveMail(s: State, w: SubKey, a: LeaveAct)
    requires MailInv(s) && CanLeave(s, w, a)
    ensures MailInv(DoLeave(s, w, a))
  {
    LeaveFrames(s, w, a);
    MailUntouched(s, DoLeave(s, w, a));
  }

  lemma FanMail(s: State, w: SubKey, i: nat, a: FanAct)
    requires MailInv(s) && CanFan(s, w, i, a)
    ensures MailInv(DoFan(s, w, i, a))
  {
    FanFrames(s, w, i, a);
    MailUntouched(s, DoFan(s, w, i, a));
  }

  lemma AbandonMail(s: State, w: SubKey, a: AbandonAct)
    requires MailInv(s) && CanAbandon(s, w, a)
    ensures MailInv(DoAbandon(s, w, a))
  {
  }

  /** One waiter moved, to a phase that carries nothing unfair. */
  lemma WaiterSetMail(m: Mail, m': Mail, said: set<StageComplete>, k: StageKey)
    requires MailFair(m, said) && m'.results == m.results && m'.deliveries == m.deliveries && k in m'.waiters
    requires m'.waiters == m.waiters[k := m'.waiters[k]] && WaiterFair(said, k, m'.waiters[k])
    ensures MailFair(m', said)
  {
  }

  lemma PlaceWaiter(s: State, k: StageKey, a: PlaceAct)
    requires CanPlace(s, k, a)
    ensures var m, m' := s.mail, DoPlace(s, k, a).mail;
            && m'.results == m.results && m'.deliveries == m.deliveries && k in m'.waiters
            && m'.waiters == m.waiters[k := m'.waiters[k]] && WaiterFair(s.hist.said, k, m'.waiters[k])
    ensures DoPlace(s, k, a).hist.said == s.hist.said
  {
    match a
    case RegisterTask(_) =>
    case GateLocal =>
    case GateRemote =>
    case Push(_, _) =>
    case PushRefused =>
    case RetryTick =>
    case RecordPush =>
    case Enqueue(_) =>
    case GiveUp(_) =>
  }

  lemma PlaceMail(s: State, k: StageKey, a: PlaceAct)
    requires MailInv(s) && CanPlace(s, k, a)
    ensures MailInv(DoPlace(s, k, a))
  {
    var s' := DoPlace(s, k, a);
    PlaceFrames(s, k, a);
    PlaceWaiter(s, k, a);
    FramesKept(s.at, s'.at, s.hist.said, s.hist.said);
    WaiterSetMail(s.mail, s'.mail, s.hist.said, k);
  }

  lemma ParkMail(s: State, k: StageKey, a: ParkAct)
    requires MailInv(s) && CanPark(s, k, a)
    ensures MailInv(DoPark(s, k, a))
  {
  }

  lemma ForeignMail(s: State, k: StageKey, a: ForeignAct)
    requires MailInv(s) && CanForeign(s, k, a)
    ensures MailInv(DoForeign(s, k, a))
  {
    match a
    case ForeignEnqueue(p, i) =>
      MoveFrames(s.at, RouteHand(p), i, Buffer(k.broker, TaskKindVer(At(s.at, RouteHand(p))[i].task)));
      FramesKept(s.at, DoForeign(s, k, a).at, s.hist.said, s.hist.said);
    case ForwardHome =>
      PutIn(s.at, OutQueue(s.mail.waiters[k].peer), CompleteFrame(s.mail.waiters[k].sc));
      assert WaiterFair(s.hist.said, k, s.mail.waiters[k]);
    case ForwardTake =>
    case OwnerGone =>
  }

  lemma DeliverMail(s: State, b: nat, sc: StageComplete)
    requires MailInv(s) && Fair(s.hist.said, sc, sc.leaseToken)
    ensures MailInv(DeliverAt(s, b, sc))
  {
  }

  lemma RouteMail(s: State, p: PeerKey, a: RouteAct)
    requires MailInv(s) && CanRoute(s, p, a)
    ensures MailInv(DoRoute(s, p, a))
  {
    match a
    case Transmit =>
      MoveFrames(s.at, OutQueue(p), 0, Wire(p));
      FramesKept(s.at, DoRoute(s, p, a).at, s.hist.said, s.hist.said);
    case LoseFrame =>
      MoveFrames(s.at, Wire(p), 0, Wire(p));
      FramesKept(s.at, DoRoute(s, p, a).at, s.hist.said, s.hist.said);
    case ReceiveTask(q) =>
      MoveFrames(s.at, Wire(p), 0, RouteHand(q));
      FramesKept(s.at, DoRoute(s, p, a).at, s.hist.said, s.hist.said);
    case ReceiveComplete(q) =>
      MoveFrames(s.at, Wire(p), 0, Wire(p));
      FramesKept(s.at, Take(s.at, Wire(p), 0), s.hist.said, s.hist.said);
      assert In(s.at, Wire(p), At(s.at, Wire(p))[0]);
      DeliverMail(s.(at := Take(s.at, Wire(p), 0)), q.broker, At(s.at, Wire(p))[0].sc);
    case Publish(_) =>
    case Cancel =>
    case Scan =>
  }

  lemma EnvMail(s: State, a: EnvAct)
    requires MailInv(s) && CanEnv(s, a)
    ensures MailInv(DoEnv(s, a))
  {
    match a
    case WorkerComplete(w, sc) =>
      MailGrows(s.mail, s.hist.said, sc);
      var s1 := s.(hist := s.hist.(said := s.hist.said + {sc}));
      assert MailInv(s1);
      DeliverMail(s1, w.broker, sc);
    case DeliverSend(d) =>
    case Wake(k) =>
    case Readiness(_, _, _) =>
    case Release(_) =>
  }

  /** Every step of the protocol keeps the provenance of results. */
  lemma MailInvKept(s: State, step: Step)
    requires MailInv(s) && Can(s, step)
    ensures MailInv(Do(s, step))
  {
    match step
    case OnAbandon(w, a) => AbandonMail(s, w, a);
    case OnPlace(k, a) => PlaceMail(s, k, a);
    case OnPark(k, a) => ParkMail(s, k, a);
    case OnForeign(k, a) => ForeignMail(s, k, a);
    case OnRoute(p, a) => RouteMail(s, p, a);
    case OnEnv(a) => EnvMail(s, a);
    case OnPull(w, a) => PullMail(s, w, a);
    case OnSend(w, a) => SendMail(s, w, a);
    case OnLeave(w, a) => LeaveMail(s, w, a);
    case OnFan(w, i, a) => FanMail(s, w, i, a);
  }
}
