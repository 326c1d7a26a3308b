/** Every step keeps what the slot accounts say of each stage, wherever it sits. */
module SlotPlaces {
  import opened Wrappers
  import opened BrokerTypes
  import opened SlotTable
  import opened Custody
  import opened Protocol
  import opened PlaceInvariant
  import opened SlotInvariant

  ghost predicate Placed(s: State) {
    PlacesOk(s) && (forall k :: Backed(s, k))
  }

  /** Tasks in other hands than w's are still there. */
  ghost predicate HandsStay(s: State, s': State, w: Option<SubKey>) {
    forall v, t :: In(s.at, LoopHand(v), TaskFrame(t)) && w != Some(v) ==> In(s'.at, LoopHand(v), TaskFrame(t))
  }

  /** The loop of w is not between attribution and claim. */
  ghost predicate NotPending(s: State, w: Option<SubKey>) {
    w.Some? && w.value in s.loops ==> !s.loops[w.value].Attributed?
  }

  lemma BackedFrame(s: State, s': State, w: Option<SubKey>)
    requires Placed(s) && Steady(s, s', None, w) && HandsStay(s, s', w) && NotPending(s, w)
    ensures forall x :: Backed(s', x)
  {
    forall x ensures Backed(s', x) {
      assert Backed(s, x);
      StayBacked(s, s', None, w, x);
    }
  }

  lemma PlacesFrame(s: State, s': State, w: Option<SubKey>)
    requires Placed(s) && Accounts(s) && PlaceInv(s) && Steady(s, s', None, w)
    ensures forall l, t :: In(s.at, l, TaskFrame(t)) && !(l.LoopHand? && w == Some(l.sub)) ==> SlotOk(s', l, t)
  {
    forall l, t | In(s.at, l, TaskFrame(t)) && !(l.LoopHand? && w == Some(l.sub)) ensures SlotOk(s', l, t) {
      assert PlaceOk(s, l, t);
      StaySteady(s, s', None, w, l, t);
    }
  }

  /** Between attribution and the send, or after a failed send, the hand is being charged. */
  predicate Quiet(l: Loop) {
    !l.Attributed? && !l.Claimed? && !l.SendFailed?
  }

  ghost predicate IdleAt(s: State, w: SubKey, l: Place, t: StageTask) {
    (l.LoopHand? ==> l.sub == w) && !l.RouteHand? && (KeyOf(l, t).Some? ==> Idle(s, KeyOf(l, t).value))
  }

  /** A step that leaves every stage record alone and moves one loop between quiet phases. */
  ghost predicate QuietMove(s: State, s': State, w: SubKey) {
    && s'.tab.stages == s.tab.stages
    && w in s'.loops && s'.loops == s.loops[w := s'.loops[w]] && Quiet(s'.loops[w])
    && (w in s.loops ==> !s.loops[w].Attributed? && (!Running(s.loops[w]) ==> !Running(s'.loops[w])))
  }

  lemma QuietStep(s: State, s': State, w: SubKey)
    requires SlotInv(s) && PlaceInv(s) && QuietMove(s, s', w) && HandsStay(s, s', Some(w))
    requires forall l, t :: In(s'.at, l, TaskFrame(t)) ==> In(s.at, l, TaskFrame(t)) || IdleAt(s, w, l, t)
    requires w in s.loops && !Quiet(s.loops[w]) ==> At(s'.at, LoopHand(w)) == []
    ensures Placed(s')
  {
    assert Steady(s, s', None, Some(w));
    PlacesFrame(s, s', Some(w));
    BackedFrame(s, s', Some(w));
    forall l, t | In(s'.at, l, TaskFrame(t)) ensures SlotOk(s', l, t) {
      if In(s.at, l, TaskFrame(t)) && l == LoopHand(w) {
        assert SlotOk(s, l, t) && PlaceOk(s, l, t);
        QuietHandStays(s, s', w, t);
      } else if !In(s.at, l, TaskFrame(t)) {
        assert IdleAt(s, w, l, t);
        IdleSlot(s, s', w, l, t);
      }
    }
  }

  lemma QuietHandStays(s: State, s': State, w: SubKey, t: StageTask)
    requires QuietMove(s, s', w) && SlotOk(s, LoopHand(w), t) && w in s.loops && Quiet(s.loops[w])
    ensures SlotOk(s', LoopHand(w), t)
  {
  }

  lemma IdleSlot(s: State, s': State, w: SubKey, l: Place, t: StageTask)
    requires QuietMove(s, s', w) && IdleAt(s, w, l, t)
    ensures SlotOk(s', l, t)
  {
  }

  // ---------------------------------------------------------------- the main loop

  lemma PullQuiet(s: State, w: SubKey, a: PullAct)
    requires CanPull(s, w, a)
    ensures QuietMove(s, DoPull(s, w, a), w) && (w in s.loops ==> Quiet(s.loops[w]))
  {
  }

  /** What a task taken out of a place tells of its key. */
  lemma HeldIsOk(s: State, l: Place, i: nat)
    requires PlacesOk(s) && IsTask(s.at, l, i)
    ensures SlotOk(s, l, At(s.at, l)[i].task)
  {
    assert In(s.at, l, TaskFrame(At(s.at, l)[i].task));
  }

  lemma ReceiveSlots(s: State, w: SubKey, i: nat)
    requires SlotInv(s) && PlaceInv(s) && CanPull(s, w, Receive(i))
    ensures Placed(DoPull(s, w, Receive(i)))
  {
    MoveMoves(s.at, FanHand(w, i), 0, LoopHand(w));
    HeldIsOk(s, FanHand(w, i), 0);
    QuietStep(s, DoPull(s, w, Receive(i)), w);
  }

  lemma PullSlots(s: State, w: SubKey, a: PullAct)
    requires SlotInv(s) && PlaceInv(s) && CanPull(s, w, a)
    ensures Placed(DoPull(s, w, a))
  {
    var s' := DoPull(s, w, a);
    match a
    case Receive(i) => ReceiveSlots(s, w, i);
    case BounceLook => BounceLookSlots(s, w);
    case BounceSend => BounceSendSlots(s, w);
    case Connect(_, _) => PullQuiet(s, w, a); QuietStep(s, s', w);
    case Acquire => PullQuiet(s, w, a); QuietStep(s, s', w);
    case CheckReady => PullQuiet(s, w, a); QuietStep(s, s', w);
  }

  lemma BounceLookSlots(s: State, w: SubKey)
    requires SlotInv(s) && PlaceInv(s) && CanPull(s, w, BounceLook)
    ensures Placed(DoPull(s, w, BounceLook))
  {
    PullQuiet(s, w, BounceLook);
    TakeRemoves(s.at, LoopHand(w), 0);
    QuietStep(s, DoPull(s, w, BounceLook), w);
  }

  lemma BounceSendSlots(s: State, w: SubKey)
    requires SlotInv(s) && PlaceInv(s) && CanPull(s, w, BounceSend)
    ensures Placed(DoPull(s, w, BounceSend))
  {
    PullQuiet(s, w, BounceSend);
    MoveMoves(s.at, LoopHand(w), 0, Buffer(w.broker, TaskKindVer(HeldTask(s, LoopHand(w)))));
    HeldIsOk(s, LoopHand(w), 0);
    QuietStep(s, DoPull(s, w, BounceSend), w);
  }

  lemma OnlyHand(s: State, w: SubKey, t: StageTask)
    requires HandOk(s.at, s.loops, w) && In(s.at, LoopHand(w), TaskFrame(t))
    ensures HoldsTask(s, LoopHand(w)) && t == HeldTask(s, LoopHand(w))
  {
  }

  /** Charging one stage that sits in the hand of w leaves every other place alone. */
  lemma OthersStay(s: State, s': State, k: StageKey, w: SubKey)
    requires SlotInv(s) && PlaceInv(s) && HoldsTask(s, LoopHand(w)) && k == HandKey(s, w) && Steady(s, s', Some(k), Some(w))
    ensures forall l, t :: In(s.at, l, TaskFrame(t)) && l != LoopHand(w) ==> SlotOk(s', l, t)
  {
    var hand := HeldTask(s, LoopHand(w));
    assert In(s.at, LoopHand(w), TaskFrame(hand));
    forall l, t | In(s.at, l, TaskFrame(t)) && l != LoopHand(w) ensures SlotOk(s', l, t) {
      assert PlaceOk(s, l, t) && SlotOk(s, l, t);
      if KeyOf(l, t) == Some(k) { OnePlace(s.at, l, t, LoopHand(w), hand); }
      StaySteady(s, s', Some(k), Some(w), l, t);
    }
  }

  lemma AttributeSteady(s: State, k: StageKey, w: SubKey, s': State)
    requires w in s.loops && Running(s.loops[w])
    requires s'.tab == Attribute(s.tab, k, w) && s'.loops == s.loops[w := Attributed]
    ensures Steady(s, s', Some(k), Some(w))
  {
  }

  lemma AttributeSlots(s: State, w: SubKey)
    requires SlotInv(s) && PlaceInv(s) && CanSend(s, w, AttributeTask) && Attributable(s.tab, HandKey(s, w))
    ensures Placed(DoSend(s, w, AttributeTask))
  {
    var s', k := DoSend(s, w, AttributeTask), HandKey(s, w);
    AttributeSteady(s, k, w, s');
    OthersStay(s, s', k, w);
    HeldIsOk(s, LoopHand(w), 0);
    assert In(s.at, LoopHand(w), TaskFrame(HeldTask(s, LoopHand(w))));
    assert PlaceOk(s, LoopHand(w), HeldTask(s, LoopHand(w)));
    forall t | In(s'.at, LoopHand(w), TaskFrame(t)) ensures SlotOk(s', LoopHand(w), t) {
      assert HandOk(s.at, s.loops, w);
      OnlyHand(s, w, t);
    }
    forall x ensures Backed(s', x) {
      assert Backed(s, x);
      if x != k { StayBacked(s, s', Some(k), Some(w), x); }
    }
  }

  lemma ClaimSteady(s: State, k: StageKey, w: SubKey, s': State)
    requires w in s.loops && Running(s.loops[w])
    requires s'.tab == ClaimGate(s.tab, k, w) && s'.loops == s.loops[w := Claimed]
    ensures Steady(s, s', Some(k), Some(w))
  {
  }

  lemma ClaimSlots(s: State, w: SubKey)
    requires SlotInv(s) && PlaceInv(s) && CanSend(s, w, Claim)
    ensures Placed(DoSend(s, w, Claim))
  {
    var s', k := DoSend(s, w, Claim), HandKey(s, w);
    ClaimSteady(s, k, w, s');
    OthersStay(s, s', k, w);
    HeldIsOk(s, LoopHand(w), 0);
    assert In(s.at, LoopHand(w), TaskFrame(HeldTask(s, LoopHand(w))));
    assert PlaceOk(s, LoopHand(w), HeldTask(s, LoopHand(w)));
    assert HandOk(s.at, s.loops, w);
    forall t | In(s'.at, LoopHand(w), TaskFrame(t)) ensures SlotOk(s', LoopHand(w), t) {
      OnlyHand(s, w, t);
    }
    forall x ensures Backed(s', x) {
      assert Backed(s, x);
      if x != k {
        if x in s.tab.stages && In(s.at, LoopHand(w), TaskFrame(s.tab.stages[x].task)) {
          OnlyHand(s, w, s.tab.stages[x].task);
          assert StageLinked(s.tab, x, s.tab.stages[x]);
        }
        StayBacked(s, s', Some(k), Some(w), x);
      }
    }
  }

  lemma SendErrorSlots(s: State, w: SubKey)
    requires SlotInv(s) && PlaceInv(s) && CanSend(s, w, SendError)
    ensures Placed(DoSend(s, w, SendError))
  {
    var s' := DoSend(s, w, SendError);
    assert Steady(s, s', None, Some(w));
    PlacesFrame(s, s', Some(w));
    BackedFrame(s, s', Some(w));
    forall t | In(s'.at, LoopHand(w), TaskFrame(t)) ensures SlotOk(s', LoopHand(w), t) {
      assert SlotOk(s, LoopHand(w), t);
    }
  }

  lemma SendOkSlots(s: State, w: SubKey)
    requires SlotInv(s) && PlaceInv(s) && CanSend(s, w, SendOk)
    ensures Placed(DoSend(s, w, SendOk))
  {
    SendOkMoves(s, w);
    SendOkQuiet(s, w);
    QuietStep(s, DoSend(s, w, SendOk), w);
  }

  /** A sent stage leaves the hand for the worker, which no account looks at. */
  lemma SendOkMoves(s: State, w: SubKey)
    requires PlaceInv(s) && CanSend(s, w, SendOk)
    ensures var s' := DoSend(s, w, SendOk);
            && HandsStay(s, s', Some(w)) && At(s'.at, LoopHand(w)) == []
            && (forall l, t :: In(s'.at, l, TaskFrame(t)) ==> In(s.at, l, TaskFrame(t)) || IdleAt(s, w, l, t))
  {
    MoveMoves(s.at, LoopHand(w), 0, SentTo(w));
    assert HandOk(s.at, s.loops, w);
  }

  lemma SendOkQuiet(s: State, w: SubKey)
    requires CanSend(s, w, SendOk)
    ensures QuietMove(s, DoSend(s, w, SendOk), w)
  {
  }

  lemma SendSlots(s: State, w: SubKey, a: SendAct)
    requires SlotInv(s) && PlaceInv(s) && CanSend(s, w, a)
    ensures Placed(DoSend(s, w, a))
  {
    match a
    case AttributeTask =>
      if Attributable(s.tab, HandKey(s, w)) {
        AttributeSlots(s, w);
      } else {
        TakeRemoves(s.at, LoopHand(w), 0);
        QuietStep(s, DoSend(s, w, a), w);
      }
    case Claim => ClaimSlots(s, w);
    case SendOk => SendOkSlots(s, w);
    case SendError => SendErrorSlots(s, w);
    case Compact => QuietStep(s, DoSend(s, w, a), w);
  }

  // ---------------------------------------------------------------- leaving and the deferred functions

  lemma UnattributeSteady(s: State, k: StageKey, w: SubKey, s': State)
    requires w in s.loops && s'.tab == Unattribute(s.tab, k) && s'.loops == s.loops[w := FailBounced]
    ensures Steady(s, s', None, Some(w))
  {
  }

  lemma UnattributeSlots(s: State, w: SubKey)
    requires SlotInv(s) && PlaceInv(s) && CanLeave(s, w, UnattributeTask)
    ensures Placed(DoLeave(s, w, UnattributeTask))
  {
    var s', k := DoLeave(s, w, UnattributeTask), HandKey(s, w);
    UnattributeSteady(s, k, w, s');
    PlacesFrame(s, s', Some(w));
    BackedFrame(s, s', Some(w));
    forall t | In(s'.at, LoopHand(w), TaskFrame(t)) ensures SlotOk(s', LoopHand(w), t) {
      UnattributeHand(s, w, t);
    }
  }

  /** What unattribute leaves of a stage charged to a stream that is on its way out. */
  lemma UnattributeIdles(t: Table, loops: map<SubKey, Loop>, k: StageKey, w: SubKey)
    requires k in t.stages && w in loops && (t.stages[k].gateSub == Some(w) || Stale(loops, t.stages[k].gateSub))
    ensures k in Unattribute(t, k).stages && !Unattribute(t, k).stages[k].slotHeld
    ensures Stale(loops[w := FailBounced], Unattribute(t, k).stages[k].gateSub)
  {
  }

  lemma UnattributeHand(s: State, w: SubKey, t: StageTask)
    requires SlotInv(s) && PlaceInv(s) && CanLeave(s, w, UnattributeTask) && In(s.at, LoopHand(w), TaskFrame(t))
    ensures SlotOk(DoLeave(s, w, UnattributeTask), LoopHand(w), t)
  {
    assert HandOk(s.at, s.loops, w);
    OnlyHand(s, w, t);
    assert SlotOk(s, LoopHand(w), t);
    var k := HandKey(s, w);
    if k in s.tab.stages { UnattributeIdles(s.tab, s.loops, k, w); }
  }

  lemma LeaveQuiet(s: State, w: SubKey, a: LeaveAct)
    requires CanLeave(s, w, a) && !a.UnattributeTask?
    ensures QuietMove(s, DoLeave(s, w, a), w) && Quiet(s.loops[w])
  {
    match a
    case ReturnHeld =>
      ReturnSlotGrows(s.tab, w);
      assert DoLeave(s, w, ReturnHeld).tab.stages == s.tab.stages;
    case FailLook =>
    case FailSend =>
    case LeaveLoop =>
  }

  lemma LeaveSlots(s: State, w: SubKey, a: LeaveAct)
    requires SlotInv(s) && PlaceInv(s) && CanLeave(s, w, a)
    ensures Placed(DoLeave(s, w, a))
  {
    var s' := DoLeave(s, w, a);
    match a
    case UnattributeTask => UnattributeSlots(s, w);
    case FailLook => FailLookSlots(s, w);
    case FailSend => FailSendSlots(s, w);
    case LeaveLoop => LeaveQuiet(s, w, a); QuietStep(s, s', w);
    case ReturnHeld => LeaveQuiet(s, w, a); QuietStep(s, s', w);
  }

  lemma FailLookSlots(s: State, w: SubKey)
    requires SlotInv(s) && PlaceInv(s) && CanLeave(s, w, FailLook)
    ensures Placed(DoLeave(s, w, FailLook))
  {
    LeaveQuiet(s, w, FailLook);
    TakeRemoves(s.at, LoopHand(w), 0);
    QuietStep(s, DoLeave(s, w, FailLook), w);
  }

  lemma FailSendSlots(s: State, w: SubKey)
    requires SlotInv(s) && PlaceInv(s) && CanLeave(s, w, FailSend)
    ensures Placed(DoLeave(s, w, FailSend))
  {
    LeaveQuiet(s, w, FailSend);
    MoveMoves(s.at, LoopHand(w), 0, Buffer(w.broker, TaskKindVer(HeldTask(s, LoopHand(w)))));
    HeldIsOk(s, LoopHand(w), 0);
    QuietStep(s, DoLeave(s, w, FailSend), w);
  }

  lemma AbandonSlots(s: State, w: SubKey, a: AbandonAct)
    requires SlotInv(s) && PlaceInv(s) && CanAbandon(s, w, a)
    ensures Placed(DoAbandon(s, w, a))
  {
    QuietStep(s, DoAbandon(s, w, a), w);
  }

  // ---------------------------------------------------------------- steps that move no loop

  /** A step that charges no stage and moves no loop; what it moved was idle. */
  lemma StillStep(s: State, s': State)
    requires SlotInv(s) && PlaceInv(s) && s'.loops == s.loops && Steady(s, s', None, None) && HandsStay(s, s', None)
    requires forall l, t :: In(s'.at, l, TaskFrame(t)) ==> In(s.at, l, TaskFrame(t)) || SlotOk(s', l, t)
    ensures Placed(s')
  {
    PlacesFrame(s, s', None);
    BackedFrame(s, s', None);
  }

  /** Nothing the slot accounts look at has changed. */
  lemma SameStep(s: State, s': State)
    requires Placed(s) && s'.at == s.at && s'.tab.stages == s.tab.stages && s'.loops == s.loops
    ensures Placed(s')
  {
    forall l, t | In(s'.at, l, TaskFrame(t)) ensures SlotOk(s', l, t) {
      assert SlotOk(s, l, t);
    }
    forall k ensures Backed(s', k) {
      assert Backed(s, k);
    }
  }

  /** A task moved between two idle places of the same broker. */
  lemma IdleMove(s: State, s': State, l: Place, i: nat, l2: Place)
    requires SlotInv(s) && PlaceInv(s) && IsTask(s.at, l, i) && s'.loops == s.loops && s'.tab.stages == s.tab.stages
    requires s'.at == Move(s.at, l, i, l2) && !l.LoopHand? && !l2.LoopHand? && !l2.RouteHand?
    requires forall t :: KeyOf(l2, t) == None || KeyOf(l2, t) == KeyOf(l, t)
    ensures Placed(s')
  {
    MoveMoves(s.at, l, i, l2);
    HeldIsOk(s, l, i);
    StillStep(s, s');
  }

  lemma IdleTake(s: State, s': State, l: Place, i: nat)
    requires SlotInv(s) && PlaceInv(s) && IsTask(s.at, l, i) && s'.loops == s.loops && s'.tab.stages == s.tab.stages
    requires s'.at == Take(s.at, l, i) && !l.LoopHand?
    ensures Placed(s')
  {
    TakeRemoves(s.at, l, i);
    StillStep(s, s');
  }

  lemma FanSlots(s: State, w: SubKey, i: nat, a: FanAct)
    requires SlotInv(s) && PlaceInv(s) && CanFan(s, w, i, a)
    ensures Placed(DoFan(s, w, i, a))
  {
    var s' := DoFan(s, w, i, a);
    match a
    case Pop => IdleMove(s, s', Buffer(w.broker, s.tab.subs[w].kms[i]), 0, FanHand(w, i));
    case StopArm =>
      if s'.fanGone == s.fanGone { IdleMove(s, s', FanHand(w, i), 0, FanBack(w, i)); }
      else { IdleTake(s, s', FanHand(w, i), 0); }
    case BackSend => IdleMove(s, s', FanBack(w, i), 0, Buffer(w.broker, TaskKindVer(HeldTask(s, FanBack(w, i)))));
    case BackStop => IdleTake(s, s', FanBack(w, i), 0);
    case Quit => SameStep(s, s');
  }

  lemma ResolveSteady(s: State, k: StageKey, s': State)
    requires s'.tab == Resolve(s.tab, k) && s'.loops == s.loops
    ensures Steady(s, s', None, None)
  {
  }

  /** A stage was resolved, or nothing was; no task moved. */
  lemma ResolvedSlots(s: State, s': State, k: StageKey)
    requires SlotInv(s) && PlaceInv(s) && s'.loops == s.loops && SameTasks(s.at, s'.at)
    requires s'.tab == Resolve(s.tab, k)
    ensures Placed(s')
  {
    ResolveSteady(s, k, s');
    StillStep(s, s');
  }

  lemma RegisterSteady(s: State, k: StageKey, task: StageTask, foreign: bool, s': State)
    requires k !in s.tab.stages && s'.tab == Register(s.tab, k, task, foreign) && s'.loops == s.loops
    ensures Steady(s, s', None, None) && Idle(s', k) && Ungated(s', k)
  {
  }

  lemma PlaceMoveSlots(s: State, k: StageKey, a: PlaceAct)
    requires SlotInv(s) && PlaceInv(s) && CanPlace(s, k, a) && MovesTask(a)
    ensures Placed(DoPlace(s, k, a))
  {
    var s', home := DoPlace(s, k, a), Dispatching(k.broker);
    match a
    case RegisterTask(task) =>
      assert k !in s.tab.stages;
      RegisterSteady(s, k, task, false, s');
      PutIn(s.at, home, TaskFrame(task));
      StillStep(s, s');
    case Push(p, i) => IdleMove(s, s', home, i, OutQueue(p));
    case Enqueue(i) => IdleMove(s, s', home, i, Buffer(k.broker, TaskKindVer(At(s.at, home)[i].task)));
    case GiveUp(i) => IdleTake(s, s', home, i);
  }

  /** A step that moves no task, charges no stage and moves no loop. */
  ghost predicate Inert(s: State, s': State) {
    s'.at == s.at && s'.tab.stages == s.tab.stages && s'.loops == s.loops
  }

  lemma PlaceInert(s: State, k: StageKey, a: PlaceAct)
    requires CanPlace(s, k, a) && !MovesTask(a)
    ensures Inert(s, DoPlace(s, k, a))
  {
  }

  lemma PlaceSlots(s: State, k: StageKey, a: PlaceAct)
    requires SlotInv(s) && PlaceInv(s) && CanPlace(s, k, a)
    ensures Placed(DoPlace(s, k, a))
  {
    if MovesTask(a) {
      PlaceMoveSlots(s, k, a);
    } else {
      PlaceInert(s, k, a);
      SameStep(s, DoPlace(s, k, a));
    }
  }

  lemma ParkSlots(s: State, k: StageKey, a: ParkAct)
    requires SlotInv(s) && PlaceInv(s) && CanPark(s, k, a)
    ensures Placed(DoPark(s, k, a))
  {
    var s' := DoPark(s, k, a);
    if a.Drop? { ResolvedSlots(s, s', k); } else { SameStep(s, s'); }
  }

  lemma ForeignEnqueueSlots(s: State, k: StageKey, p: PeerKey, i: nat)
    requires SlotInv(s) && PlaceInv(s) && CanForeign(s, k, ForeignEnqueue(p, i))
    ensures Placed(DoForeign(s, k, ForeignEnqueue(p, i)))
  {
    var s' := DoForeign(s, k, ForeignEnqueue(p, i));
    var kv := TaskKindVer(At(s.at, RouteHand(p))[i].task);
    if Room(s, kv, k.broker) { IdleMove(s, s', RouteHand(p), i, Buffer(k.broker, kv)); }
    else { IdleTake(s, s', RouteHand(p), i); }
  }

  lemma ForwardHomeSlots(s: State, k: StageKey)
    requires SlotInv(s) && PlaceInv(s) && CanForeign(s, k, ForwardHome)
    ensures Placed(DoForeign(s, k, ForwardHome))
  {
    var s' := DoForeign(s, k, ForwardHome);
    if s'.at == s.at {
      SameStep(s, s');
    } else {
      PutComplete(s.at, OutQueue(s.mail.waiters[k].peer), s.mail.waiters[k].sc);
      StillStep(s, s');
    }
  }

  lemma ForeignSlots(s: State, k: StageKey, a: ForeignAct)
    requires SlotInv(s) && PlaceInv(s) && CanForeign(s, k, a)
    ensures Placed(DoForeign(s, k, a))
  {
    match a
    case ForeignEnqueue(p, i) => ForeignEnqueueSlots(s, k, p, i);
    case ForwardHome => ForwardHomeSlots(s, k);
    case ForwardTake => SameStep(s, DoForeign(s, k, a));
    case OwnerGone => SameStep(s, DoForeign(s, k, a));
  }

  lemma TransmitSlots(s: State, p: PeerKey)
    requires SlotInv(s) && PlaceInv(s) && CanRoute(s, p, Transmit)
    ensures Placed(DoRoute(s, p, Transmit))
  {
    TransmitMoves(s, p);
    StillStep(s, DoRoute(s, p, Transmit));
  }

  lemma TransmitMoves(s: State, p: PeerKey)
    requires PlaceInv(s) && CanRoute(s, p, Transmit)
    ensures var s' := DoRoute(s, p, Transmit);
            HandsStay(s, s', None) && forall l, t :: In(s'.at, l, TaskFrame(t)) ==> In(s.at, l, TaskFrame(t)) || SlotOk(s', l, t)
  {
    if At(s.at, OutQueue(p))[0].TaskFrame? { MoveMoves(s.at, OutQueue(p), 0, Wire(p)); }
    else { MoveComplete(s.at, OutQueue(p), 0, Wire(p)); }
  }

  lemma LoseSlots(s: State, p: PeerKey)
    requires SlotInv(s) && PlaceInv(s) && CanRoute(s, p, LoseFrame)
    ensures Placed(DoRoute(s, p, LoseFrame))
  {
    if At(s.at, Wire(p))[0].TaskFrame? { TakeRemoves(s.at, Wire(p), 0); }
    else { TakeComplete(s.at, Wire(p), 0); }
    StillStep(s, DoRoute(s, p, LoseFrame));
  }

  lemma ReceiveTaskSlots(s: State, p: PeerKey, q: PeerKey)
    requires SlotInv(s) && PlaceInv(s) && CanRoute(s, p, ReceiveTask(q))
    ensures Placed(DoRoute(s, p, ReceiveTask(q)))
  {
    var s' := DoRoute(s, p, ReceiveTask(q));
    ArrivesFresh(s, p, q);
    var task := HeldTask(s, Wire(p));
    RegisterSteady(s, StageKey(q.broker, task.leaseToken), task, true, s');
    MoveMoves(s.at, Wire(p), 0, RouteHand(q));
    StillStep(s, s');
  }

  lemma ReceiveCompleteSlots(s: State, p: PeerKey, q: PeerKey)
    requires SlotInv(s) && PlaceInv(s) && CanRoute(s, p, ReceiveComplete(q))
    ensures Placed(DoRoute(s, p, ReceiveComplete(q)))
  {
    TakeComplete(s.at, Wire(p), 0);
    ResolvedSlots(s, DoRoute(s, p, ReceiveComplete(q)), StageKey(q.broker, At(s.at, Wire(p))[0].sc.leaseToken));
  }

  lemma RouteSlots(s: State, p: PeerKey, a: RouteAct)
    requires SlotInv(s) && PlaceInv(s) && CanRoute(s, p, a)
    ensures Placed(DoRoute(s, p, a))
  {
    match a
    case Transmit => TransmitSlots(s, p);
    case LoseFrame => LoseSlots(s, p);
    case ReceiveTask(q) => ReceiveTaskSlots(s, p, q);
    case ReceiveComplete(q) => ReceiveCompleteSlots(s, p, q);
    case Publish(_) => SameStep(s, DoRoute(s, p, a));
    case Cancel => SameStep(s, DoRoute(s, p, a));
    case Scan => SameStep(s, DoRoute(s, p, a));
  }

  lemma CompleteSlots(s: State, w: SubKey, sc: StageComplete)
    requires SlotInv(s) && PlaceInv(s) && CanEnv(s, WorkerComplete(w, sc))
    ensures Placed(DoEnv(s, WorkerComplete(w, sc)))
  {
    ResolvedSlots(s, DoEnv(s, WorkerComplete(w, sc)), StageKey(w.broker, sc.leaseToken));
  }

  lemma EnvInert(s: State, a: EnvAct)
    requires CanEnv(s, a) && !a.WorkerComplete?
    ensures Inert(s, DoEnv(s, a))
  {
    match a
    case Readiness(_, _, _) =>
    case Release(_) =>
    case DeliverSend(_) =>
    case Wake(_) =>
  }

  lemma EnvSlots(s: State, a: EnvAct)
    requires SlotInv(s) && PlaceInv(s) && CanEnv(s, a)
    ensures Placed(DoEnv(s, a))
  {
    if a.WorkerComplete? {
      CompleteSlots(s, a.sub, a.sc);
    } else {
      EnvInert(s, a);
      SameStep(s, DoEnv(s, a));
    }
  }

  // ---------------------------------------------------------------- every step

  lemma PlacedKept(s: State, step: Step)
    requires SlotInv(s) && PlaceInv(s) && Can(s, step)
    ensures Placed(Do(s, step))
  {
    match step
    case OnPull(w, a) => PullSlots(s, w, a);
    case OnSend(w, a) => SendSlots(s, w, a);
    case OnLeave(w, a) => LeaveSlots(s, w, a);
    case OnAbandon(w, a) => AbandonSlots(s, w, a);
    case OnFan(w, i, a) => FanSlots(s, w, i, a);
    case OnPlace(k, a) => PlaceSlots(s, k, a);
    case OnPark(k, a) => ParkSlots(s, k, a);
    case OnForeign(k, a) => ForeignSlots(s, k, a);
    case OnRoute(p, a) => RouteSlots(s, p, a);
    case OnEnv(a) => EnvSlots(s, a);
  }
}
