/**
  Stages on their way to a peer. Whatever shows that a stage was pushed to a peer p — its
  frame in p's queue or on the wire, the pushedTo record, or the copy another broker
  registered for it — its own waiter at home knows p, until it has decided to drop it.
 */
module AwayInvariant {
  import opened Wrappers
  import opened BrokerTypes
  import opened SlotTable
  import opened Custody
  import opened Protocol
  import opened PlaceInvariant

  // ---------------------------------------------------------------- the invariant

  predicate AwayTo(x: Waiter, p: PeerKey) {
    ((x.Pushed? || x.ParkedRemote?) && x.peer == p) || x.Dropping? || x.Done?
  }

  /** The local stage k was pushed to p, and its waiter stands accordingly. */
  ghost predicate SentAway(s: State, k: StageKey, p: PeerKey) {
    && k in s.tab.stages && !s.tab.stages[k].foreign && k in s.mail.waiters
    && p in s.peers && p.broker == k.broker && AwayTo(s.mail.waiters[k], p)
  }

  ghost predicate OnRouteTo(at: Places, p: PeerKey, t: StageTask) {
    In(at, OutQueue(p), TaskFrame(t)) || In(at, Wire(p), TaskFrame(t))
  }

  ghost predicate FramesAway(s: State) {
    forall p, t :: OnRouteTo(s.at, p, t) ==> SentAway(s, StageKey(p.broker, t.leaseToken), p)
  }

  /** A record is made by the waiter itself, as it parks; while in flight a parked waiter has its record. */
  ghost predicate RecordOk(s: State, k: StageKey) {
    && (k in s.mail.pushedTo ==> SentAway(s, k, s.mail.pushedTo[k]) && !s.mail.waiters[k].Pushed?)
    && (k in s.mail.waiters && s.mail.waiters[k].ParkedRemote? && k in s.tab.inflight ==>
          k in s.mail.pushedTo && s.mail.pushedTo[k] == s.mail.waiters[k].peer)
  }

  ghost predicate HomeOf(s: State, k: StageKey, b: nat, p: PeerKey) {
    SentAway(s, StageKey(b, k.token), p) && s.peers[p].member == k.broker
  }

  /** A foreign stage is a copy of one that its home pushed to a peer client of this broker. */
  ghost predicate CopyOk(s: State, k: StageKey) {
    k in s.tab.stages && s.tab.stages[k].foreign ==> exists b, p :: HomeOf(s, k, b, p)
  }

  /** The forwarder of a reference, at any of its phases. */
  predicate Relaying(x: Waiter) {
    x.Forwarder? || x.ForwarderTook? || ((x.Dropping? || x.Done?) && x.outcome.Relayed?)
  }

  /** A local stage is waited for by its dispatcher, a foreign one by a forwarder. */
  ghost predicate WaiterHome(s: State, k: StageKey) {
    k in s.mail.waiters ==> k in s.tab.stages && (Relaying(s.mail.waiters[k]) <==> s.tab.stages[k].foreign)
  }

  ghost predicate AwayInv(s: State) {
    FramesAway(s) && (forall k :: RecordOk(s, k)) && (forall k :: CopyOk(s, k)) && (forall k :: WaiterHome(s, k))
  }

  // ---------------------------------------------------------------- what a step leaves alone

  /** How a waiter that pushed its stage can move. */
  predicate StaysAway(x: Waiter, x': Waiter) {
    && (x.Pushed? ==> x' == x || x' == ParkedRemote(x.peer))
    && (x.ParkedRemote? ==> x' == x || x'.Dropping?)
    && (x.Dropping? ==> x' == x || x' == Done(x.outcome))
    && (x.Done? ==> x' == x)
  }

  ghost predicate WaitersStay(s: State, s': State) {
    forall k | k in s.mail.waiters :: k in s'.mail.waiters && StaysAway(s.mail.waiters[k], s'.mail.waiters[k])
  }

  ghost predicate StagesStay(s: State, s': State) {
    && (forall k | k in s.tab.stages :: k in s'.tab.stages && s'.tab.stages[k].foreign == s.tab.stages[k].foreign)
    && (forall p | p in s.peers :: p in s'.peers && s'.peers[p].member == s.peers[p].member)
  }

  lemma AwayStays(s: State, s': State, k: StageKey, p: PeerKey)
    requires WaitersStay(s, s') && StagesStay(s, s') && SentAway(s, k, p)
    ensures SentAway(s', k, p)
  {
  }

  /** No task enters a route. */
  ghost predicate RoutesStay(at: Places, at': Places) {
    forall p, t :: OnRouteTo(at', p, t) ==> OnRouteTo(at, p, t)
  }

  lemma FramesFrame(s: State, s': State)
    requires FramesAway(s) && WaitersStay(s, s') && StagesStay(s, s') && RoutesStay(s.at, s'.at)
    ensures FramesAway(s')
  {
    forall p, t | OnRouteTo(s'.at, p, t) ensures SentAway(s', StageKey(p.broker, t.leaseToken), p) {
      AwayStays(s, s', StageKey(p.broker, t.leaseToken), p);
    }
  }

  lemma CopyStays(s: State, s': State, k: StageKey)
    requires CopyOk(s, k) && WaitersStay(s, s') && StagesStay(s, s') && k in s.tab.stages
    ensures CopyOk(s', k)
  {
    if s.tab.stages[k].foreign {
      var b, p :| HomeOf(s, k, b, p);
      AwayStays(s, s', StageKey(b, k.token), p);
      assert HomeOf(s', k, b, p);
    }
  }

  /** Only the waiter of `moved` (if any) changed, to a phase that does not wait for a peer; records stay. */
  ghost predicate RecordsStay(s: State, s': State, moved: Option<StageKey>) {
    && s'.mail.pushedTo == s.mail.pushedTo
    && (forall k | k in s'.mail.waiters && Some(k) != moved :: k in s.mail.waiters && s'.mail.waiters[k] == s.mail.waiters[k])
    && (moved.Some? && moved.value in s'.mail.waiters ==> Unparked(s, s'.mail.waiters[moved.value], moved.value))
    && (forall k | k in s.mail.waiters && k in s'.tab.inflight :: k in s.tab.inflight)
  }

  predicate Unparked(s: State, x: Waiter, k: StageKey) {
    !x.ParkedRemote? && (k in s.mail.pushedTo ==> !x.Pushed?)
  }

  lemma RecordsFrame(s: State, s': State, moved: Option<StageKey>)
    requires AwayInv(s) && WaitersStay(s, s') && StagesStay(s, s') && RecordsStay(s, s', moved)
    ensures forall k :: RecordOk(s', k)
  {
    forall k ensures RecordOk(s', k) {
      assert RecordOk(s, k);
      if k in s.mail.pushedTo { AwayStays(s, s', k, s.mail.pushedTo[k]); }
    }
  }

  /** A step that keeps all of it: new stages are local ones. */
  ghost predicate HomesStay(s: State, s': State) {
    && (forall k | k in s'.tab.stages && k !in s.tab.stages :: !s'.tab.stages[k].foreign)
    && (forall k | k in s'.mail.waiters :: WaiterHome(s', k))
  }

  lemma AwayFrame(s: State, s': State, moved: Option<StageKey>)
    requires AwayInv(s) && WaitersStay(s, s') && StagesStay(s, s') && RoutesStay(s.at, s'.at)
    requires RecordsStay(s, s', moved) && HomesStay(s, s')
    ensures AwayInv(s')
  {
    FramesFrame(s, s');
    RecordsFrame(s, s', moved);
    forall k ensures CopyOk(s', k) {
      assert CopyOk(s, k);
      if k in s.tab.stages { CopyStays(s, s', k); }
    }
  }

  // ---------------------------------------------------------------- streams

  /** Streams touch neither waiters, records nor peers, and put nothing on a route. */
  ghost predicate Bystander(s: State, s': State) {
    && s'.mail.waiters == s.mail.waiters && s'.mail.pushedTo == s.mail.pushedTo && s'.peers.Keys == s.peers.Keys
    && (forall p | p in s.peers :: s'.peers[p].member == s.peers[p].member)
    && TableStays(s.tab, s'.tab) && RoutesStay(s.at, s'.at)
  }

  ghost predicate TableStays(t: Table, t': Table) {
    && t'.stages.Keys == t.stages.Keys && t'.inflight <= t.inflight
    && (forall k | k in t.stages :: t'.stages[k].foreign == t.stages[k].foreign)
  }

  lemma ResolveStays(t: Table, k: StageKey)
    ensures TableStays(t, Resolve(t, k))
  {
  }

  lemma SameTable(t: Table)
    ensures TableStays(t, t)
  {
  }

  lemma ReturnStays(t: Table, w: SubKey)
    ensures TableStays(t, ReturnSlot(t, w))
  {
  }

  lemma UnattributeStays(t: Table, k: StageKey)
    ensures TableStays(t, Unattribute(t, k))
  {
  }

  lemma BystanderAway(s: State, s': State)
    requires AwayInv(s) && Bystander(s, s')
    ensures AwayInv(s')
  {
    forall k | k in s'.mail.waiters ensures WaiterHome(s', k) { assert WaiterHome(s, k); }
    AwayFrame(s, s', None);
  }

  ghost predicate RoutesSame(at: Places, at': Places) {
    forall p :: At(at', OutQueue(p)) == At(at, OutQueue(p)) && At(at', Wire(p)) == At(at, Wire(p))
  }

  lemma SameRoutes(at: Places, at': Places)
    requires RoutesSame(at, at')
    ensures RoutesStay(at, at')
  {
  }

  lemma PullBystander(s: State, w: SubKey, a: PullAct)
    requires CanPull(s, w, a)
    ensures Bystander(s, DoPull(s, w, a))
  {
    SameRoutes(s.at, DoPull(s, w, a).at);
  }

  lemma SendBystander(s: State, w: SubKey, a: SendAct)
    requires CanSend(s, w, a)
    ensures Bystander(s, DoSend(s, w, a))
  {
    SameRoutes(s.at, DoSend(s, w, a).at);
  }

  lemma LeaveBystander(s: State, w: SubKey, a: LeaveAct)
    requires CanLeave(s, w, a)
    ensures Bystander(s, DoLeave(s, w, a))
  {
    SameRoutes(s.at, DoLeave(s, w, a).at);
    match a
    case UnattributeTask => UnattributeStays(s.tab, HandKey(s, w));
    case FailLook => SameTable(s.tab);
    case FailSend => SameTable(s.tab);
    case LeaveLoop => SameTable(s.tab);
    case ReturnHeld => ReturnStays(s.tab, w); SameTable(s.tab);
  }

  lemma AbandonBystander(s: State, w: SubKey, a: AbandonAct)
    requires CanAbandon(s, w, a)
    ensures Bystander(s, DoAbandon(s, w, a))
  {
  }

  lemma FanBystander(s: State, w: SubKey, i: nat, a: FanAct)
    requires CanFan(s, w, i, a)
    ensures Bystander(s, DoFan(s, w, i, a))
  {
    SameRoutes(s.at, DoFan(s, w, i, a).at);
  }

  lemma EnvBystander(s: State, a: EnvAct)
    requires CanEnv(s, a)
    ensures Bystander(s, DoEnv(s, a))
  {
    match a
    case WorkerComplete(w, sc) => DeliverBystander(s.(hist := s.hist.(said := s.hist.said + {sc})), w.broker, sc);
    case Readiness(_, _, _) =>
    case Release(_) =>
    case DeliverSend(_) =>
    case Wake(_) =>
  }

  lemma DeliverBystander(s: State, b: nat, sc: StageComplete)
    ensures Bystander(s, DeliverAt(s, b, sc))
  {
    SameRoutes(s.at, s.at);
    ResolveStays(s.tab, StageKey(b, sc.leaseToken));
  }

  // ---------------------------------------------------------------- waiters

  lemma RegisterAway(s: State, k: StageKey, task: StageTask)
    requires AwayInv(s) && Fresh(s) && CanPlace(s, k, RegisterTask(task))
    ensures AwayInv(DoPlace(s, k, RegisterTask(task)))
  {
    var s' := DoPlace(s, k, RegisterTask(task));
    assert k !in s.tab.stages && k !in s.mail.waiters;
    SameRoutes(s.at, s'.at);
    assert RecordOk(s, k);
    forall x | x in s'.mail.waiters ensures WaiterHome(s', x) { assert WaiterHome(s, x); }
    AwayFrame(s, s', Some(k));
  }

  lemma PushAway(s: State, k: StageKey, p: PeerKey, i: nat)
    requires AwayInv(s) && CanPlace(s, k, Push(p, i))
    ensures AwayInv(DoPlace(s, k, Push(p, i)))
  {
    var s' := DoPlace(s, k, Push(p, i));
    assert WaiterHome(s, k) && RecordOk(s, k);
    MoveIn(s.at, Dispatching(k.broker), i, OutQueue(p));
    forall q, t | OnRouteTo(s'.at, q, t) ensures SentAway(s', StageKey(q.broker, t.leaseToken), q) {
      if OnRouteTo(s.at, q, t) { AwayStays(s, s', StageKey(q.broker, t.leaseToken), q); }
    }
    RecordsFrame(s, s', Some(k));
    forall x ensures CopyOk(s', x) && WaiterHome(s', x) {
      assert CopyOk(s, x) && WaiterHome(s, x);
      if x in s.tab.stages { CopyStays(s, s', x); }
    }
  }

  lemma RecordPushAway(s: State, k: StageKey)
    requires AwayInv(s) && FramesAway(s) && PeersKnown(s, k) && CanPlace(s, k, RecordPush)
    ensures AwayInv(DoPlace(s, k, RecordPush))
  {
    var s' := DoPlace(s, k, RecordPush);
    assert WaiterHome(s, k) && RecordOk(s, k);
    FramesFrame(s, s');
    forall x ensures RecordOk(s', x) {
      assert RecordOk(s, x);
      if x != k && x in s.mail.pushedTo { AwayStays(s, s', x, s.mail.pushedTo[x]); }
    }
    forall x ensures CopyOk(s', x) && WaiterHome(s', x) {
      assert CopyOk(s, x) && WaiterHome(s, x);
      if x in s.tab.stages { CopyStays(s, s', x); }
    }
  }

  /** The peer a waiter pushed its stage to is one of its broker's. */
  ghost predicate PeersKnown(s: State, k: StageKey) {
    k in s.mail.waiters && s.mail.waiters[k].Pushed? ==> s.mail.waiters[k].peer in s.peers && s.mail.waiters[k].peer.broker == k.broker
  }

  /** A step that moves one waiter on, and no frame onto a route. */
  lemma OneWaiterAway(s: State, s': State, k: StageKey, x: Waiter)
    requires AwayInv(s) && s'.tab == s.tab && s'.peers == s.peers && s'.mail.pushedTo == s.mail.pushedTo && RoutesStay(s.at, s'.at)
    requires k in s.mail.waiters && s'.mail.waiters == s.mail.waiters[k := x]
    requires StaysAway(s.mail.waiters[k], x) && (Relaying(x) <==> Relaying(s.mail.waiters[k])) && Unparked(s, x, k)
    ensures AwayInv(s')
  {
    assert WaiterHome(s, k);
    forall y | y in s'.mail.waiters ensures WaiterHome(s', y) { assert WaiterHome(s, y); }
    AwayFrame(s, s', Some(k));
  }

  lemma OtherPlaceAway(s: State, k: StageKey, a: PlaceAct)
    requires AwayInv(s) && CanPlace(s, k, a) && !a.RegisterTask? && !a.Push? && !a.RecordPush?
    ensures AwayInv(DoPlace(s, k, a))
  {
    var s' := DoPlace(s, k, a);
    SameRoutes(s.at, s'.at);
    OneWaiterAway(s, s', k, s'.mail.waiters[k]);
  }

  lemma ParkAway(s: State, k: StageKey, a: ParkAct)
    requires AwayInv(s) && CanPark(s, k, a)
    ensures AwayInv(DoPark(s, k, a))
  {
    var s' := DoPark(s, k, a);
    assert WaiterHome(s, k);
    forall x | x in s'.mail.waiters ensures WaiterHome(s', x) { assert WaiterHome(s, x); }
    AwayFrame(s, s', Some(k));
  }

  lemma ForeignRoutes(s: State, k: StageKey, a: ForeignAct)
    requires CanForeign(s, k, a)
    ensures RoutesStay(s.at, DoForeign(s, k, a).at)
  {
    match a
    case ForeignEnqueue(_, _) => SameRoutes(s.at, DoForeign(s, k, a).at);
    case ForwardHome => PutIn(s.at, OutQueue(s.mail.waiters[k].peer), CompleteFrame(s.mail.waiters[k].sc));
    case ForwardTake =>
    case OwnerGone =>
  }

  lemma ForeignAway(s: State, k: StageKey, a: ForeignAct)
    requires AwayInv(s) && CanForeign(s, k, a)
    ensures AwayInv(DoForeign(s, k, a))
  {
    var s' := DoForeign(s, k, a);
    ForeignRoutes(s, k, a);
    if a.ForeignEnqueue? { BystanderAway(s, s'); } else { RelayAway(s, k, a); }
  }

  lemma RelayAway(s: State, k: StageKey, a: ForeignAct)
    requires AwayInv(s) && CanForeign(s, k, a) && !a.ForeignEnqueue?
    ensures AwayInv(DoForeign(s, k, a))
  {
    var s' := DoForeign(s, k, a);
    ForeignRoutes(s, k, a);
    OneWaiterAway(s, s', k, s'.mail.waiters[k]);
  }

  // ---------------------------------------------------------------- routes

  lemma ReceiveTaskAway(s: State, p: PeerKey, q: PeerKey)
    requires AwayInv(s) && PlaceInv(s) && CanRoute(s, p, ReceiveTask(q))
    ensures AwayInv(DoRoute(s, p, ReceiveTask(q)))
  {
    var s', task := DoRoute(s, p, ReceiveTask(q)), HeldTask(s, Wire(p));
    var k2 := StageKey(q.broker, task.leaseToken);
    ArrivesFresh(s, p, q);
    assert WaiterHome(s, k2) && RecordOk(s, k2);
    assert OnRouteTo(s.at, p, task);
    MoveIn(s.at, Wire(p), 0, RouteHand(q));
    FramesFrame(s, s');
    RecordsFrame(s, s', Some(k2));
    forall x ensures CopyOk(s', x) && WaiterHome(s', x) {
      assert CopyOk(s, x) && WaiterHome(s, x);
      if x in s.tab.stages { CopyStays(s, s', x); }
      if x == k2 {
        AwayStays(s, s', StageKey(p.broker, task.leaseToken), p);
        assert HomeOf(s', k2, p.broker, p);
      }
    }
  }

  lemma TransmitRoutes(s: State, p: PeerKey)
    requires CanRoute(s, p, Transmit)
    ensures RoutesStay(s.at, DoRoute(s, p, Transmit).at)
  {
    MoveIn(s.at, OutQueue(p), 0, Wire(p));
  }

  lemma OtherRouteAway(s: State, p: PeerKey, a: RouteAct)
    requires CanRoute(s, p, a) && !a.ReceiveTask? && !a.Publish?
    ensures Bystander(s, DoRoute(s, p, a))
  {
    match a
    case Transmit => TransmitRoutes(s, p);
    case LoseFrame => TakeIn(s.at, Wire(p), 0);
    case ReceiveComplete(q) =>
      TakeIn(s.at, Wire(p), 0);
      ResolveStays(s.tab, StageKey(q.broker, At(s.at, Wire(p))[0].sc.leaseToken));
    case Cancel =>
    case Scan =>
  }

  lemma PublishAway(s: State, p: PeerKey, member: nat)
    requires AwayInv(s) && CanRoute(s, p, Publish(member))
    ensures AwayInv(DoRoute(s, p, Publish(member)))
  {
    var s' := DoRoute(s, p, Publish(member));
    forall x | x in s'.mail.waiters ensures WaiterHome(s', x) { assert WaiterHome(s, x); }
    AwayFrame(s, s', None);
  }

  // ---------------------------------------------------------------- every step

  /** Every step of the protocol keeps the link between a pushed stage and its waiter. */
  lemma AwayInvKept(s: State, step: Step)
    requires AwayInv(s) && PlaceInv(s) && (forall k :: PeersKnown(s, k)) && Can(s, step)
    ensures AwayInv(Do(s, step))
  {
    match step
    case OnPull(w, a) => PullBystander(s, w, a); BystanderAway(s, DoPull(s, w, a));
    case OnSend(w, a) => SendBystander(s, w, a); BystanderAway(s, DoSend(s, w, a));
    case OnLeave(w, a) => LeaveBystander(s, w, a); BystanderAway(s, DoLeave(s, w, a));
    case OnAbandon(w, a) => AbandonBystander(s, w, a); BystanderAway(s, DoAbandon(s, w, a));
    case OnFan(w, i, a) => FanBystander(s, w, i, a); BystanderAway(s, DoFan(s, w, i, a));
    case OnPlace(k, a) => PlaceAway(s, k, a);
    case OnPark(k, a) => ParkAway(s, k, a);
    case OnForeign(k, a) => ForeignAway(s, k, a);
    case OnRoute(p, a) => RouteAway(s, p, a);
    case OnEnv(a) => EnvBystander(s, a); BystanderAway(s, DoEnv(s, a));
  }

  lemma PlaceAway(s: State, k: StageKey, a: PlaceAct)
    requires AwayInv(s) && PlaceInv(s) && PeersKnown(s, k) && CanPlace(s, k, a)
    ensures AwayInv(DoPlace(s, k, a))
  {
    match a
    case RegisterTask(task) => RegisterAway(s, k, task);
    case Push(p, i) => PushAway(s, k, p, i);
    case RecordPush => RecordPushAway(s, k);
    case _ => OtherPlaceAway(s, k, a);
  }

  lemma RouteAway(s: State, p: PeerKey, a: RouteAct)
    requires AwayInv(s) && PlaceInv(s) && CanRoute(s, p, a)
    ensures AwayInv(DoRoute(s, p, a))
  {
    match a
    case ReceiveTask(q) => ReceiveTaskAway(s, p, q);
    case Publish(member) => PublishAway(s, p, member);
    case _ => OtherRouteAway(s, p, a); BystanderAway(s, DoRoute(s, p, a));
  }
}
