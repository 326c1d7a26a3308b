/**
  Where every stage may be, in every reachable state: one place per lease token, the
  right stage record behind it, and the right (kind, kindVersion) for the place.
 */
module PlaceInvariant {
  import opened Wrappers
  import opened BrokerTypes
  import opened SlotTable
  import opened Custody
  import opened Protocol

  // ---------------------------------------------------------------- the invariant

  /** The main loop holds a task exactly between receiving it and sending or returning it. */
  predicate HasTask(l: Loop) {
    l.Taken? || l.Cleared? || l.Bounced? || l.BouncingBack? || l.Attributed? || l.Claimed?
    || l.SendFailed? || l.FailBounced? || l.FailingBack?
  }

  ghost predicate HandOk(at: Places, loops: map<SubKey, Loop>, w: SubKey) {
    |At(at, LoopHand(w))| == if w in loops && HasTask(loops[w]) then 1 else 0
  }

  ghost predicate HandInv(s: State) {
    forall w :: HandOk(s.at, s.loops, w)
  }

  /** The dispatching goroutine still has the stage in its own hands. */
  predicate Unplaced(x: Waiter) {
    x.Placing? || x.Trying? || x.Retry? || x.Queueing?
  }

  /** The stage was put into a buffer of this broker, or arrived from a peer. */
  predicate Settled(x: Waiter) {
    x.ParkedLocal? || x.Forwarder? || x.ForwarderTook? || x.Dropping? || x.Done?
  }

  ghost predicate OnlyAt(s: State, tok: Token, b: nat) {
    forall b' :: StageKey(b', tok) in s.tab.stages ==> b' == b
  }

  ghost predicate Recorded(s: State, b: nat, t: StageTask) {
    var k := StageKey(b, t.leaseToken);
    k in s.tab.stages && s.tab.stages[k].task == t && k in s.mail.waiters
  }

  ghost predicate Known(s: State, b: nat, t: StageTask) {
    Recorded(s, b, t) && Settled(s.mail.waiters[StageKey(b, t.leaseToken)])
  }

  ghost predicate PlaceOk(s: State, l: Place, t: StageTask) {
    && t.leaseToken in s.hist.used
    && match l
       case Dispatching(b) => Recorded(s, b, t) && Unplaced(s.mail.waiters[StageKey(b, t.leaseToken)]) && OnlyAt(s, t.leaseToken, b)
       case OutQueue(p) => p in s.peers && OnlyAt(s, t.leaseToken, p.broker)
       case Wire(p) => p in s.peers && OnlyAt(s, t.leaseToken, p.broker)
       case Buffer(b, kv) => Known(s, b, t) && TaskKindVer(t) == kv
       case FanHand(w, i) => Known(s, w.broker, t) && w in s.tab.subs && i < |s.tab.subs[w].kms| && s.tab.subs[w].kms[i] == TaskKindVer(t)
       case FanBack(w, i) => Known(s, w.broker, t) && w in s.tab.subs && i < |s.tab.subs[w].kms| && s.tab.subs[w].kms[i] == TaskKindVer(t)
       case LoopHand(w) => Known(s, w.broker, t) && Serves(s, w, TaskKindVer(t))
       case SentTo(w) => Known(s, w.broker, t) && Serves(s, w, TaskKindVer(t))
       case RouteHand(p) => Known(s, p.broker, t) && s.tab.stages[StageKey(p.broker, t.leaseToken)].foreign
  }

  ghost predicate TasksPlaced(s: State) {
    forall l, t :: In(s.at, l, TaskFrame(t)) ==> PlaceOk(s, l, t)
  }

  ghost predicate Fresh(s: State) {
    && (forall k | k in s.tab.stages :: k.token in s.hist.used)
    && (forall k | k in s.mail.waiters :: k.token in s.hist.used)
    && (forall p | p in s.peers :: s.peers[p].member != p.broker)
  }

  ghost predicate PlaceInv(s: State) {
    Unique(s.at) && HandInv(s) && TasksPlaced(s) && Fresh(s)
  }

  // ---------------------------------------------------------------- what never shrinks

  ghost predicate StagesGrow(t: Table, t': Table) {
    && (forall k | k in t.stages :: k in t'.stages && t'.stages[k].task == t.stages[k].task && t'.stages[k].foreign == t.stages[k].foreign)
    && (forall w | w in t.subs :: w in t'.subs && t'.subs[w].kms == t.subs[w].kms && t'.subs[w].maxInflight == t.subs[w].maxInflight)
  }

  ghost predicate Grows(s: State, s': State) {
    && StagesGrow(s.tab, s'.tab)
    && s.hist.used <= s'.hist.used
    && (forall p | p in s.peers :: p in s'.peers && s'.peers[p].member == s.peers[p].member)
    && (forall k | k in s.mail.waiters :: k in s'.mail.waiters && (Settled(s.mail.waiters[k]) ==> Settled(s'.mail.waiters[k])))
  }

  /** Only stages and unplaced waiters of token tok (if any) are new or changed. */
  ghost predicate TouchesOnly(s: State, s': State, tok: Option<Token>) {
    && (forall k | k in s'.tab.stages && k !in s.tab.stages :: tok == Some(k.token))
    && (forall k | k in s'.mail.waiters && k !in s.mail.waiters :: tok == Some(k.token))
    && (forall k | k in s.mail.waiters && Unplaced(s.mail.waiters[k]) && tok != Some(k.token) ::
          k in s'.mail.waiters && Unplaced(s'.mail.waiters[k]))
  }

  /** Every task that was not touched keeps its place's guarantee. */
  lemma Undisturbed(s: State, s': State, tok: Option<Token>, l: Place, t: StageTask)
    requires PlaceOk(s, l, t) && Grows(s, s') && TouchesOnly(s, s', tok) && tok != Some(t.leaseToken)
    ensures PlaceOk(s', l, t)
  {
  }

  lemma AllUndisturbed(s: State, s': State, tok: Option<Token>)
    requires TasksPlaced(s) && Grows(s, s') && TouchesOnly(s, s', tok)
    ensures forall l, t :: In(s.at, l, TaskFrame(t)) && tok != Some(t.leaseToken) ==> PlaceOk(s', l, t)
  {
    forall l, t | In(s.at, l, TaskFrame(t)) && tok != Some(t.leaseToken) ensures PlaceOk(s', l, t) {
      Undisturbed(s, s', tok, l, t);
    }
  }

  lemma ResolveGrows(t: Table, k: StageKey)
    ensures StagesGrow(t, Resolve(t, k)) && Resolve(t, k).stages.Keys == t.stages.Keys
  {
    assert k in t.stages ==> t.stages.Keys + {k} == t.stages.Keys;
  }

  lemma ReleaseGrows(t: Table, w: SubKey)
    ensures StagesGrow(t, ExecuteRelease(t, w)) && ExecuteRelease(t, w).stages == t.stages
  {
  }

  /** A step that leaves waiters, peers and used tokens alone. */
  lemma QuietGrows(s: State, s': State)
    requires StagesGrow(s.tab, s'.tab) && s'.tab.stages.Keys == s.tab.stages.Keys
    requires s'.hist.used == s.hist.used && s'.peers == s.peers && s'.mail.waiters == s.mail.waiters
    ensures Grows(s, s') && TouchesOnly(s, s', None)
  {
  }

  lemma SameGrows(s: State, s': State)
    requires s'.tab == s.tab && s'.hist.used == s.hist.used && s'.peers == s.peers && s'.mail.waiters == s.mail.waiters
    ensures Grows(s, s') && TouchesOnly(s, s', None)
  {
  }

  /** A step that moves one placed waiter on. */
  lemma WaiterGrows(s: State, s': State, k: StageKey, x: Waiter)
    requires StagesGrow(s.tab, s'.tab) && s'.tab.stages.Keys == s.tab.stages.Keys && s'.hist == s.hist && s'.peers == s.peers
    requires k in s.mail.waiters && s'.mail.waiters == s.mail.waiters[k := x]
    requires !Unplaced(s.mail.waiters[k]) && (Settled(s.mail.waiters[k]) ==> Settled(x))
    ensures Grows(s, s') && TouchesOnly(s, s', None)
  {
  }

  lemma AttributeGrows(t: Table, k: StageKey, w: SubKey)
    ensures StagesGrow(t, Attribute(t, k, w)) && Attribute(t, k, w).stages.Keys == t.stages.Keys
  {
  }

  lemma ClaimGrows(t: Table, k: StageKey, w: SubKey)
    ensures StagesGrow(t, ClaimGate(t, k, w)) && ClaimGate(t, k, w).stages.Keys == t.stages.Keys
  {
  }

  lemma UnattributeGrows(t: Table, k: StageKey)
    ensures StagesGrow(t, Unattribute(t, k)) && Unattribute(t, k).stages.Keys == t.stages.Keys
  {
  }

  lemma ReturnSlotGrows(t: Table, w: SubKey)
    ensures StagesGrow(t, ReturnSlot(t, w)) && ReturnSlot(t, w).stages == t.stages
  {
  }

  // ---------------------------------------------------------------- the main loop

  lemma PullGrows(s: State, w: SubKey, a: PullAct)
    requires CanPull(s, w, a)
    ensures Grows(s, DoPull(s, w, a)) && TouchesOnly(s, DoPull(s, w, a), None)
  {
  }

  lemma PullPlaces(s: State, w: SubKey, a: PullAct)
    requires PlaceInv(s) && CanPull(s, w, a)
    ensures TasksPlaced(DoPull(s, w, a)) && Unique(DoPull(s, w, a).at)
  {
    var s' := DoPull(s, w, a);
    PullGrows(s, w, a);
    AllUndisturbed(s, s', None);
    match a
    case Receive(i) =>
      MoveMoves(s.at, FanHand(w, i), 0, LoopHand(w));
    case BounceLook =>
      TakeRemoves(s.at, LoopHand(w), 0);
    case BounceSend =>
      MoveMoves(s.at, LoopHand(w), 0, Buffer(w.broker, TaskKindVer(HeldTask(s, LoopHand(w)))));
    case Connect(_, _) =>
    case Acquire =>
    case CheckReady =>
  }

  lemma PullHands(s: State, w: SubKey, a: PullAct, x: SubKey)
    requires HandOk(s.at, s.loops, w) && HandOk(s.at, s.loops, x) && CanPull(s, w, a)
    ensures HandOk(DoPull(s, w, a).at, DoPull(s, w, a).loops, x)
  {
    match a
    case Connect(_, _) =>
    case Acquire =>
    case Receive(_) =>
    case CheckReady =>
    case BounceLook =>
    case BounceSend =>
  }

  lemma SendGrows(s: State, w: SubKey, a: SendAct)
    requires CanSend(s, w, a)
    ensures Grows(s, DoSend(s, w, a)) && TouchesOnly(s, DoSend(s, w, a), None)
  {
    match a
    case AttributeTask => AttributeGrows(s.tab, HandKey(s, w), w);
    case Claim => ClaimGrows(s.tab, HandKey(s, w), w);
    case SendOk =>
    case SendError =>
    case Compact =>
  }

  lemma SendPlaces(s: State, w: SubKey, a: SendAct)
    requires PlaceInv(s) && CanSend(s, w, a)
    ensures TasksPlaced(DoSend(s, w, a)) && Unique(DoSend(s, w, a).at)
  {
    var s' := DoSend(s, w, a);
    SendGrows(s, w, a);
    AllUndisturbed(s, s', None);
    match a
    case AttributeTask =>
      TakeRemoves(s.at, LoopHand(w), 0);
    case SendOk =>
      MoveMoves(s.at, LoopHand(w), 0, SentTo(w));
    case Claim =>
    case SendError =>
    case Compact =>
  }

  lemma SendHands(s: State, w: SubKey, a: SendAct, x: SubKey)
    requires HandOk(s.at, s.loops, w) && HandOk(s.at, s.loops, x) && CanSend(s, w, a)
    ensures HandOk(DoSend(s, w, a).at, DoSend(s, w, a).loops, x)
  {
  }

  // ---------------------------------------------------------------- leaving and the deferred functions

  lemma LeaveGrows(s: State, w: SubKey, a: LeaveAct)
    requires CanLeave(s, w, a)
    ensures Grows(s, DoLeave(s, w, a)) && TouchesOnly(s, DoLeave(s, w, a), None)
  {
    match a
    case UnattributeTask => UnattributeGrows(s.tab, HandKey(s, w));
    case ReturnHeld => ReturnSlotGrows(s.tab, w);
    case FailLook =>
    case FailSend =>
    case LeaveLoop =>
  }

  lemma LeavePlaces(s: State, w: SubKey, a: LeaveAct)
    requires PlaceInv(s) && CanLeave(s, w, a)
    ensures TasksPlaced(DoLeave(s, w, a)) && Unique(DoLeave(s, w, a).at)
  {
    var s' := DoLeave(s, w, a);
    LeaveGrows(s, w, a);
    AllUndisturbed(s, s', None);
    match a
    case FailLook =>
      TakeRemoves(s.at, LoopHand(w), 0);
    case FailSend =>
      MoveMoves(s.at, LoopHand(w), 0, Buffer(w.broker, TaskKindVer(HeldTask(s, LoopHand(w)))));
    case UnattributeTask =>
    case LeaveLoop =>
    case ReturnHeld =>
  }

  lemma LeaveHands(s: State, w: SubKey, a: LeaveAct, x: SubKey)
    requires HandOk(s.at, s.loops, w) && HandOk(s.at, s.loops, x) && CanLeave(s, w, a)
    ensures HandOk(DoLeave(s, w, a).at, DoLeave(s, w, a).loops, x)
  {
    match a
    case UnattributeTask =>
    case FailLook =>
    case FailSend =>
    case LeaveLoop =>
    case ReturnHeld =>
  }

  lemma AbandonPlaces(s: State, w: SubKey, a: AbandonAct)
    requires PlaceInv(s) && CanAbandon(s, w, a)
    ensures Grows(s, DoAbandon(s, w, a)) && TouchesOnly(s, DoAbandon(s, w, a), None)
    ensures TasksPlaced(DoAbandon(s, w, a)) && Unique(DoAbandon(s, w, a).at)
  {
    var s' := DoAbandon(s, w, a);
    assert Grows(s, s') && TouchesOnly(s, s', None);
    AllUndisturbed(s, s', None);
  }

  lemma AbandonHands(s: State, w: SubKey, a: AbandonAct, x: SubKey)
    requires HandOk(s.at, s.loops, x) && CanAbandon(s, w, a)
    ensures HandOk(DoAbandon(s, w, a).at, DoAbandon(s, w, a).loops, x)
  {
  }

  // ---------------------------------------------------------------- fan-ins

  lemma FanGrows(s: State, w: SubKey, i: nat, a: FanAct)
    requires CanFan(s, w, i, a)
    ensures Grows(s, DoFan(s, w, i, a)) && TouchesOnly(s, DoFan(s, w, i, a), None)
  {
  }

  lemma FanPlaces(s: State, w: SubKey, i: nat, a: FanAct)
    requires PlaceInv(s) && CanFan(s, w, i, a)
    ensures TasksPlaced(DoFan(s, w, i, a)) && Unique(DoFan(s, w, i, a).at)
  {
    var s' := DoFan(s, w, i, a);
    FanGrows(s, w, i, a);
    AllUndisturbed(s, s', None);
    match a
    case Pop =>
      MoveMoves(s.at, Buffer(w.broker, s.tab.subs[w].kms[i]), 0, FanHand(w, i));
    case StopArm =>
      MoveMoves(s.at, FanHand(w, i), 0, FanBack(w, i));
      TakeRemoves(s.at, FanHand(w, i), 0);
    case BackSend =>
      MoveMoves(s.at, FanBack(w, i), 0, Buffer(w.broker, TaskKindVer(HeldTask(s, FanBack(w, i)))));
    case BackStop =>
      TakeRemoves(s.at, FanBack(w, i), 0);
    case Quit =>
  }

  // ---------------------------------------------------------------- waiters

  predicate MovesTask(a: PlaceAct) {
    a.RegisterTask? || a.Push? || a.Enqueue? || a.GiveUp?
  }

  lemma RegisterGrows(s: State, k: StageKey, task: StageTask)
    requires Fresh(s) && CanPlace(s, k, RegisterTask(task))
    ensures Grows(s, DoPlace(s, k, RegisterTask(task)))
  {
    assert k !in s.tab.stages && k !in s.mail.waiters;
  }

  lemma WaitGrows(s: State, k: StageKey, a: PlaceAct)
    requires CanPlace(s, k, a) && !MovesTask(a)
    ensures Grows(s, DoPlace(s, k, a))
  {
  }

  lemma PlaceGrows(s: State, k: StageKey, a: PlaceAct)
    requires Fresh(s) && CanPlace(s, k, a)
    ensures Grows(s, DoPlace(s, k, a))
  {
    match a
    case RegisterTask(task) => RegisterGrows(s, k, task);
    case Push(_, _) =>
    case Enqueue(_) =>
    case GiveUp(_) =>
    case _ => WaitGrows(s, k, a);
  }

  lemma PlaceTouches(s: State, k: StageKey, a: PlaceAct)
    requires CanPlace(s, k, a)
    ensures TouchesOnly(s, DoPlace(s, k, a), if MovesTask(a) then Some(k.token) else None)
  {
  }

  lemma PlacePlaces(s: State, k: StageKey, a: PlaceAct)
    requires PlaceInv(s) && CanPlace(s, k, a)
    ensures TasksPlaced(DoPlace(s, k, a)) && Unique(DoPlace(s, k, a).at)
  {
    var s' := DoPlace(s, k, a);
    PlaceGrows(s, k, a);
    PlaceTouches(s, k, a);
    if MovesTask(a) {
      AllUndisturbed(s, s', Some(k.token));
      PlaceMoves(s, k, a);
    } else {
      AllUndisturbed(s, s', None);
    }
  }

  lemma RegisterPlaced(s: State, k: StageKey, task: StageTask)
    requires PlaceInv(s) && CanPlace(s, k, RegisterTask(task))
    requires forall l, t :: In(s.at, l, TaskFrame(t)) && t.leaseToken != k.token ==> PlaceOk(DoPlace(s, k, RegisterTask(task)), l, t)
    ensures var s' := DoPlace(s, k, RegisterTask(task)); TasksPlaced(s') && Unique(s'.at)
  {
    assert Absent(s.at, k.token);
    PutAdds(s.at, Dispatching(k.broker), task);
  }

  lemma PushPlaced(s: State, k: StageKey, p: PeerKey, i: nat)
    requires PlaceInv(s) && CanPlace(s, k, Push(p, i))
    requires forall l, t :: In(s.at, l, TaskFrame(t)) && t.leaseToken != k.token ==> PlaceOk(DoPlace(s, k, Push(p, i)), l, t)
    ensures var s' := DoPlace(s, k, Push(p, i)); TasksPlaced(s') && Unique(s'.at)
  {
    MoveMoves(s.at, Dispatching(k.broker), i, OutQueue(p));
  }

  lemma PlaceMoves(s: State, k: StageKey, a: PlaceAct)
    requires PlaceInv(s) && CanPlace(s, k, a) && MovesTask(a)
    requires forall l, t :: In(s.at, l, TaskFrame(t)) && t.leaseToken != k.token ==> PlaceOk(DoPlace(s, k, a), l, t)
    ensures TasksPlaced(DoPlace(s, k, a)) && Unique(DoPlace(s, k, a).at)
  {
    match a
    case RegisterTask(task) => RegisterPlaced(s, k, task);
    case Push(p, i) => PushPlaced(s, k, p, i);
    case Enqueue(i) =>
      MoveMoves(s.at, Dispatching(k.broker), i, Buffer(k.broker, TaskKindVer(At(s.at, Dispatching(k.broker))[i].task)));
    case GiveUp(i) =>
      TakeRemoves(s.at, Dispatching(k.broker), i);
  }

  lemma ParkGrows(s: State, k: StageKey, a: ParkAct)
    requires CanPark(s, k, a)
    ensures Grows(s, DoPark(s, k, a)) && TouchesOnly(s, DoPark(s, k, a), None)
  {
    var s' := DoPark(s, k, a);
    match a
    case Timeout => WaiterGrows(s, s', k, Dropping(Cancelled));
    case TakeResult => WaiterGrows(s, s', k, Dropping(Returned(s.mail.results[k])));
    case PeerGoneArm => WaiterGrows(s, s', k, Dropping(Returned(PeerDeparted())));
    case Drop =>
      ResolveGrows(s.tab, k);
      WaiterGrows(s, s', k, Done(s.mail.waiters[k].outcome));
  }

  lemma ParkPlaces(s: State, k: StageKey, a: ParkAct)
    requires PlaceInv(s) && CanPark(s, k, a)
    ensures TasksPlaced(DoPark(s, k, a)) && Unique(DoPark(s, k, a).at)
  {
    ParkGrows(s, k, a);
    AllUndisturbed(s, DoPark(s, k, a), None);
  }

  lemma ForeignGrows(s: State, k: StageKey, a: ForeignAct)
    requires CanForeign(s, k, a)
    ensures Grows(s, DoForeign(s, k, a)) && TouchesOnly(s, DoForeign(s, k, a), None)
  {
    var s' := DoForeign(s, k, a);
    match a
    case ForeignEnqueue(p, i) =>
      assert s'.tab.stages == s.tab.stages && s'.tab.subs == s.tab.subs;
      QuietGrows(s, s');
    case ForwardTake => WaiterGrows(s, s', k, ForwarderTook(s.mail.waiters[k].peer, s.mail.results[k]));
    case ForwardHome => WaiterGrows(s, s', k, Dropping(Relayed));
    case OwnerGone => WaiterGrows(s, s', k, Dropping(Relayed));
  }

  lemma ForeignPlaces(s: State, k: StageKey, a: ForeignAct)
    requires PlaceInv(s) && CanForeign(s, k, a)
    ensures TasksPlaced(DoForeign(s, k, a)) && Unique(DoForeign(s, k, a).at)
  {
    var s' := DoForeign(s, k, a);
    ForeignGrows(s, k, a);
    AllUndisturbed(s, s', None);
    match a
    case ForeignEnqueue(p, i) =>
      MoveMoves(s.at, RouteHand(p), i, Buffer(k.broker, TaskKindVer(At(s.at, RouteHand(p))[i].task)));
      TakeRemoves(s.at, RouteHand(p), i);
    case ForwardTake =>
    case ForwardHome =>
      PutComplete(s.at, OutQueue(s.mail.waiters[k].peer), s.mail.waiters[k].sc);
    case OwnerGone =>
  }

  // ---------------------------------------------------------------- routes, workers, background sends

  /** A reference that arrives is new to the receiving broker. */
  lemma ArrivesFresh(s: State, p: PeerKey, q: PeerKey)
    requires PlaceInv(s) && CanRoute(s, p, ReceiveTask(q))
    ensures StageKey(q.broker, HeldTask(s, Wire(p)).leaseToken) !in s.tab.stages
  {
    assert In(s.at, Wire(p), TaskFrame(HeldTask(s, Wire(p))));
  }

  lemma RouteGrows(s: State, p: PeerKey, a: RouteAct)
    requires PlaceInv(s) && CanRoute(s, p, a)
    ensures Grows(s, DoRoute(s, p, a))
    ensures TouchesOnly(s, DoRoute(s, p, a), if a.ReceiveTask? then Some(HeldTask(s, Wire(p)).leaseToken) else None)
  {
    var s' := DoRoute(s, p, a);
    match a
    case ReceiveTask(q) =>
      ArrivesFresh(s, p, q);
      assert In(s.at, Wire(p), TaskFrame(HeldTask(s, Wire(p))));
    case ReceiveComplete(q) =>
      ResolveGrows(s.tab, StageKey(q.broker, At(s.at, Wire(p))[0].sc.leaseToken));
      if StageKey(q.broker, At(s.at, Wire(p))[0].sc.leaseToken) in s.tab.inflight { QuietGrows(s, s'); } else { SameGrows(s, s'); }
    case Publish(_) =>
    case Cancel =>
    case Scan =>
    case Transmit => SameGrows(s, s');
    case LoseFrame => SameGrows(s, s');
  }

  lemma RoutePlaces(s: State, p: PeerKey, a: RouteAct)
    requires PlaceInv(s) && CanRoute(s, p, a)
    ensures TasksPlaced(DoRoute(s, p, a)) && Unique(DoRoute(s, p, a).at)
  {
    var s' := DoRoute(s, p, a);
    RouteGrows(s, p, a);
    AllUndisturbed(s, s', if a.ReceiveTask? then Some(HeldTask(s, Wire(p)).leaseToken) else None);
    match a
    case Transmit =>
      if At(s.at, OutQueue(p))[0].TaskFrame? { MoveMoves(s.at, OutQueue(p), 0, Wire(p)); }
      else { MoveComplete(s.at, OutQueue(p), 0, Wire(p)); }
    case LoseFrame =>
      if At(s.at, Wire(p))[0].TaskFrame? { TakeRemoves(s.at, Wire(p), 0); }
      else { TakeComplete(s.at, Wire(p), 0); }
    case ReceiveTask(q) =>
      MoveMoves(s.at, Wire(p), 0, RouteHand(q));
    case ReceiveComplete(q) =>
      TakeComplete(s.at, Wire(p), 0);
    case Publish(_) =>
    case Cancel =>
    case Scan =>
  }

  lemma CompleteGrows(s: State, w: SubKey, sc: StageComplete)
    requires CanEnv(s, WorkerComplete(w, sc))
    ensures var s' := DoEnv(s, WorkerComplete(w, sc)); Grows(s, s') && TouchesOnly(s, s', None) && s'.at == s.at
  {
    ResolveGrows(s.tab, StageKey(w.broker, sc.leaseToken));
    if StageKey(w.broker, sc.leaseToken) in s.tab.inflight {
      QuietGrows(s, DoEnv(s, WorkerComplete(w, sc)));
    } else {
      SameGrows(s, DoEnv(s, WorkerComplete(w, sc)));
    }
  }

  lemma EnvGrows(s: State, a: EnvAct)
    requires CanEnv(s, a)
    ensures Grows(s, DoEnv(s, a)) && TouchesOnly(s, DoEnv(s, a), None) && DoEnv(s, a).at == s.at
  {
    var s' := DoEnv(s, a);
    match a
    case Readiness(_, _, _) => SameGrows(s, s');
    case WorkerComplete(w, sc) => CompleteGrows(s, w, sc);
    case Release(w) =>
      ReleaseGrows(s.tab, w);
      QuietGrows(s, s');
    case DeliverSend(_) => SameGrows(s, s');
    case Wake(_) => SameGrows(s, s');
  }

  lemma EnvPlaces(s: State, a: EnvAct)
    requires PlaceInv(s) && CanEnv(s, a)
    ensures Grows(s, DoEnv(s, a)) && TouchesOnly(s, DoEnv(s, a), None)
    ensures TasksPlaced(DoEnv(s, a)) && Unique(DoEnv(s, a).at)
  {
    EnvGrows(s, a);
    AllUndisturbed(s, DoEnv(s, a), None);
  }

  // ---------------------------------------------------------------- every step

  /** Steps outside the main loop do not touch any loop's hand. */
  lemma FanHands(s: State, w: SubKey, i: nat, a: FanAct, x: SubKey)
    requires CanFan(s, w, i, a)
    ensures At(DoFan(s, w, i, a).at, LoopHand(x)) == At(s.at, LoopHand(x))
  {
  }

  lemma PlaceHands(s: State, k: StageKey, a: PlaceAct, x: SubKey)
    requires CanPlace(s, k, a)
    ensures At(DoPlace(s, k, a).at, LoopHand(x)) == At(s.at, LoopHand(x))
  {
  }

  lemma ForeignHands(s: State, k: StageKey, a: ForeignAct, x: SubKey)
    requires CanForeign(s, k, a)
    ensures At(DoForeign(s, k, a).at, LoopHand(x)) == At(s.at, LoopHand(x))
  {
  }

  lemma RouteHands(s: State, p: PeerKey, a: RouteAct, x: SubKey)
    requires CanRoute(s, p, a)
    ensures At(DoRoute(s, p, a).at, LoopHand(x)) == At(s.at, LoopHand(x))
    ensures DoRoute(s, p, a).loops == s.loops
  {
  }

  lemma LoopHandKept(s: State, step: Step, x: SubKey)
    requires HandInv(s) && Can(s, step) && (step.OnPull? || step.OnSend? || step.OnLeave?)
    ensures HandOk(Do(s, step).at, Do(s, step).loops, x)
  {
    assert HandOk(s.at, s.loops, x) && HandOk(s.at, s.loops, step.sub);
    match step
    case OnPull(w, a) => PullHands(s, w, a, x);
    case OnSend(w, a) => SendHands(s, w, a, x);
    case OnLeave(w, a) => LeaveHands(s, w, a, x);
  }

  lemma ParkHands(s: State, k: StageKey, a: ParkAct)
    requires CanPark(s, k, a)
    ensures DoPark(s, k, a).at == s.at && DoPark(s, k, a).loops == s.loops
  {
  }

  lemma EnvHands(s: State, a: EnvAct)
    requires CanEnv(s, a)
    ensures DoEnv(s, a).at == s.at && DoEnv(s, a).loops == s.loops
  {
  }

  lemma OtherHandKept(s: State, step: Step, x: SubKey)
    requires HandInv(s) && Can(s, step) && !(step.OnPull? || step.OnSend? || step.OnLeave?)
    ensures HandOk(Do(s, step).at, Do(s, step).loops, x)
  {
    assert HandOk(s.at, s.loops, x);
    match step
    case OnAbandon(w, a) => AbandonHands(s, w, a, x);
    case OnFan(w, i, a) => FanHands(s, w, i, a, x);
    case OnPlace(k, a) => PlaceHands(s, k, a, x);
    case OnPark(k, a) => ParkHands(s, k, a);
    case OnForeign(k, a) => ForeignHands(s, k, a, x);
    case OnRoute(p, a) => RouteHands(s, p, a, x);
    case OnEnv(a) => EnvHands(s, a);
  }

  lemma HandsKept(s: State, step: Step)
    requires HandInv(s) && Can(s, step)
    ensures HandInv(Do(s, step))
  {
    forall x ensures HandOk(Do(s, step).at, Do(s, step).loops, x) {
      if step.OnPull? || step.OnSend? || step.OnLeave? { LoopHandKept(s, step, x); } else { OtherHandKept(s, step, x); }
    }
  }

  /** Nothing enters the tables under a token that was never minted. */
  lemma FreshFrom(s: State, s': State, tok: Option<Token>)
    requires Fresh(s) && Grows(s, s') && TouchesOnly(s, s', tok) && (tok.Some? ==> tok.value in s'.hist.used)
    requires forall p | p in s'.peers && p !in s.peers :: s'.peers[p].member != p.broker
    ensures Fresh(s')
  {
  }

  lemma PlaceUses(s: State, k: StageKey, a: PlaceAct)
    requires Fresh(s) && CanPlace(s, k, a) && MovesTask(a)
    ensures k.token in DoPlace(s, k, a).hist.used
  {
    if a.Push? || a.Enqueue? || a.GiveUp? { assert k in s.mail.waiters; }
  }

  lemma PullStepKeeps(s: State, w: SubKey, a: PullAct)
    requires PlaceInv(s) && CanPull(s, w, a)
    ensures var s' := DoPull(s, w, a); TasksPlaced(s') && Unique(s'.at) && Grows(s, s') && Fresh(s')
  {
    PullPlaces(s, w, a);
    PullGrows(s, w, a);
    FreshFrom(s, DoPull(s, w, a), None);
  }

  lemma SendStepKeeps(s: State, w: SubKey, a: SendAct)
    requires PlaceInv(s) && CanSend(s, w, a)
    ensures var s' := DoSend(s, w, a); TasksPlaced(s') && Unique(s'.at) && Grows(s, s') && Fresh(s')
  {
    SendPlaces(s, w, a);
    SendGrows(s, w, a);
    FreshFrom(s, DoSend(s, w, a), None);
  }

  lemma LeaveStepKeeps(s: State, w: SubKey, a: LeaveAct)
    requires PlaceInv(s) && CanLeave(s, w, a)
    ensures var s' := DoLeave(s, w, a); TasksPlaced(s') && Unique(s'.at) && Grows(s, s') && Fresh(s')
  {
    LeavePlaces(s, w, a);
    LeaveGrows(s, w, a);
    FreshFrom(s, DoLeave(s, w, a), None);
  }

  lemma LoopStepKeeps(s: State, step: Step)
    requires PlaceInv(s) && Can(s, step) && (step.OnPull? || step.OnSend? || step.OnLeave?)
    ensures TasksPlaced(Do(s, step)) && Unique(Do(s, step).at) && Grows(s, Do(s, step)) && Fresh(Do(s, step))
  {
    match step
    case OnPull(w, a) => PullStepKeeps(s, w, a);
    case OnSend(w, a) => SendStepKeeps(s, w, a);
    case OnLeave(w, a) => LeaveStepKeeps(s, w, a);
  }

  lemma AbandonStepKeeps(s: State, w: SubKey, a: AbandonAct)
    requires PlaceInv(s) && CanAbandon(s, w, a)
    ensures var s' := DoAbandon(s, w, a); TasksPlaced(s') && Unique(s'.at) && Grows(s, s') && Fresh(s')
  {
    AbandonPlaces(s, w, a);
    FreshFrom(s, DoAbandon(s, w, a), None);
  }

  lemma FanStepKeeps(s: State, w: SubKey, i: nat, a: FanAct)
    requires PlaceInv(s) && CanFan(s, w, i, a)
    ensures var s' := DoFan(s, w, i, a); TasksPlaced(s') && Unique(s'.at) && Grows(s, s') && Fresh(s')
  {
    FanPlaces(s, w, i, a);
    FanGrows(s, w, i, a);
    FreshFrom(s, DoFan(s, w, i, a), None);
  }

  lemma ParkStepKeeps(s: State, k: StageKey, a: ParkAct)
    requires PlaceInv(s) && CanPark(s, k, a)
    ensures var s' := DoPark(s, k, a); TasksPlaced(s') && Unique(s'.at) && Grows(s, s') && Fresh(s')
  {
    ParkPlaces(s, k, a);
    ParkGrows(s, k, a);
    FreshFrom(s, DoPark(s, k, a), None);
  }

  lemma ForeignStepKeeps(s: State, k: StageKey, a: ForeignAct)
    requires PlaceInv(s) && CanForeign(s, k, a)
    ensures var s' := DoForeign(s, k, a); TasksPlaced(s') && Unique(s'.at) && Grows(s, s') && Fresh(s')
  {
    ForeignPlaces(s, k, a);
    ForeignGrows(s, k, a);
    FreshFrom(s, DoForeign(s, k, a), None);
  }

  lemma EnvStepKeeps(s: State, a: EnvAct)
    requires PlaceInv(s) && CanEnv(s, a)
    ensures var s' := DoEnv(s, a); TasksPlaced(s') && Unique(s'.at) && Grows(s, s') && Fresh(s')
  {
    EnvPlaces(s, a);
    FreshFrom(s, DoEnv(s, a), None);
  }

  lemma SideStepKeeps(s: State, step: Step)
    requires PlaceInv(s) && Can(s, step) && (step.OnAbandon? || step.OnFan? || step.OnPark? || step.OnForeign? || step.OnEnv?)
    ensures TasksPlaced(Do(s, step)) && Unique(Do(s, step).at) && Grows(s, Do(s, step)) && Fresh(Do(s, step))
  {
    match step
    case OnAbandon(w, a) => AbandonStepKeeps(s, w, a);
    case OnFan(w, i, a) => FanStepKeeps(s, w, i, a);
    case OnPark(k, a) => ParkStepKeeps(s, k, a);
    case OnForeign(k, a) => ForeignStepKeeps(s, k, a);
    case OnEnv(a) => EnvStepKeeps(s, a);
  }

  lemma PlaceStepKeeps(s: State, k: StageKey, a: PlaceAct)
    requires PlaceInv(s) && CanPlace(s, k, a)
    ensures TasksPlaced(DoPlace(s, k, a)) && Unique(DoPlace(s, k, a).at)
    ensures Grows(s, DoPlace(s, k, a)) && Fresh(DoPlace(s, k, a))
  {
    PlacePlaces(s, k, a); PlaceGrows(s, k, a); PlaceTouches(s, k, a);
    if MovesTask(a) { PlaceUses(s, k, a); }
    FreshFrom(s, DoPlace(s, k, a), if MovesTask(a) then Some(k.token) else None);
  }

  lemma RouteStepKeeps(s: State, p: PeerKey, a: RouteAct)
    requires PlaceInv(s) && CanRoute(s, p, a)
    ensures TasksPlaced(DoRoute(s, p, a)) && Unique(DoRoute(s, p, a).at)
    ensures Grows(s, DoRoute(s, p, a)) && Fresh(DoRoute(s, p, a))
  {
    RoutePlaces(s, p, a); RouteGrows(s, p, a);
    if a.ReceiveTask? { assert In(s.at, Wire(p), TaskFrame(HeldTask(s, Wire(p)))); }
    FreshFrom(s, DoRoute(s, p, a), if a.ReceiveTask? then Some(HeldTask(s, Wire(p)).leaseToken) else None);
  }

  /** Every step of the protocol keeps the place invariant. */
  lemma PlaceInvKept(s: State, step: Step)
    requires PlaceInv(s) && Can(s, step)
    ensures PlaceInv(Do(s, step)) && Grows(s, Do(s, step))
  {
    HandsKept(s, step);
    match step
    case OnPull(_, _) => LoopStepKeeps(s, step);
    case OnSend(_, _) => LoopStepKeeps(s, step);
    case OnLeave(_, _) => LoopStepKeeps(s, step);
    case OnPlace(k, a) => PlaceStepKeeps(s, k, a);
    case OnRoute(p, a) => RouteStepKeeps(s, p, a);
    case _ => SideStepKeeps(s, step);
  }
}
