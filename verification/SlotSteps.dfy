/** Every step of the protocol keeps the slot invariant. */
module SlotSteps {
  import opened Wrappers
  import opened BrokerTypes
  import opened SlotTable
  import opened Custody
  import opened Protocol
  import opened PlaceInvariant
  import opened SlotInvariant
  import SlotPlaces

  // ---------------------------------------------------------------- accounts

  /** Phases may move as long as no stream starts running, changes what it holds, or comes back. */
  ghost predicate SamePhases(loops: map<SubKey, Loop>, loops': map<SubKey, Loop>) {
    loops'.Keys == loops.Keys && (forall x | x in loops :: SamePhase(loops[x], loops'[x]))
  }

  ghost predicate SamePhase(l: Loop, l': Loop) {
    Holding(l') == Holding(l) && (Running(l') ==> Running(l)) && (Gone(l) ==> Gone(l'))
  }

  lemma AccountsFrame(s: State, s': State)
    requires Accounts(s) && s'.tab == s.tab && SamePhases(s.loops, s'.loops)
    ensures Accounts(s')
  {
    forall x ensures Conserved(s'.tab, s'.loops, x) {
      assert Conserved(s.tab, s.loops, x);
    }
  }

  lemma AccountsSame(s: State, s': State)
    requires Accounts(s) && s'.tab == s.tab && s'.loops == s.loops
    ensures Accounts(s')
  {
  }

  lemma RegisterAccounts(s: State, k: StageKey, task: StageTask, foreign: bool, s': State)
    requires Accounts(s) && k !in s.tab.stages && task.leaseToken == k.token
    requires s'.tab == Register(s.tab, k, task, foreign) && s'.loops == s.loops
    ensures Accounts(s')
  {
    RegisterKeeps(s.tab, k, task, foreign);
    forall x ensures Conserved(s'.tab, s'.loops, x) {
      assert Conserved(s.tab, s.loops, x);
      RegisterBalance(s.tab, k, task, foreign, x);
    }
  }

  lemma ResolveAccounts(s: State, k: StageKey, s': State)
    requires Accounts(s) && s'.tab == Resolve(s.tab, k) && s'.loops == s.loops
    ensures Accounts(s')
  {
    ResolveKeeps(s.tab, k);
    ResolveBounded(s.tab, k);
    forall x ensures Conserved(s'.tab, s'.loops, x) {
      assert Conserved(s.tab, s.loops, x);
      ResolveBalance(s.tab, k, x);
    }
  }

  lemma ResolveBounded(t: Table, k: StageKey)
    requires WellLinked(t) && Bounded(t)
    ensures Bounded(Resolve(t, k)) && Resolve(t, k).subs.Keys == t.subs.Keys
    ensures forall w | w in t.subs :: Resolve(t, k).subs[w].slots == t.subs[w].slots
  {
    if k in t.inflight { assert StageLinked(t, k, t.stages[k]); }
  }

  lemma NoGateYet(t: Table, w: SubKey)
    requires WellLinked(t) && Bounded(t) && w !in t.subs
    ensures Balance(t, w) == 0
  {
    forall k | k in t.inflight && k in t.stages ensures t.stages[k].gateSub != Some(w) {
      assert StageLinked(t, k, t.stages[k]);
    }
    assert GateSet(t, w) == {};
  }

  lemma ConnectAccounts(s: State, w: SubKey, kms: seq<KindVersion>, max: int)
    requires Accounts(s) && CanPull(s, w, Connect(kms, max))
    ensures Accounts(DoPull(s, w, Connect(kms, max)))
  {
    var s' := DoPull(s, w, Connect(kms, max));
    ConnectKeeps(s.tab, w, kms, max);
    forall x ensures Conserved(s'.tab, s'.loops, x) {
      assert Conserved(s.tab, s.loops, x);
      assert GateSet(s'.tab, x) == GateSet(s.tab, x);
      if x == w { NoGateYet(s.tab, w); }
    }
  }

  lemma AcquireBounded(t: Table, w: SubKey)
    requires Bounded(t) && w in t.subs && t.subs[w].slots < t.subs[w].maxInflight
    ensures var t' := AcquireSlot(t, w);
            Bounded(t') && t'.subs.Keys == t.subs.Keys && forall x | x in t.subs :: t'.subs[x].inflight == t.subs[x].inflight
  {
    assert t.subs.Keys + {w} == t.subs.Keys;
  }

  lemma AcquireTable(t: Table, loops: map<SubKey, Loop>, w: SubKey)
    requires AccountsOf(t, loops) && w in loops && loops[w] == NeedSlot && t.subs[w].slots < t.subs[w].maxInflight
    ensures AccountsOf(AcquireSlot(t, w), loops[w := HaveSlot])
  {
    var t', loops' := AcquireSlot(t, w), loops[w := HaveSlot];
    AcquireBounded(t, w);
    SlotMoveKeeps(t, t');
    forall x ensures Conserved(t', loops', x) {
      assert Conserved(t, loops, x);
      AcquireConserves(t, loops, w, x);
    }
  }

  lemma AcquireConserves(t: Table, loops: map<SubKey, Loop>, w: SubKey, x: SubKey)
    requires w in t.subs && w in loops && loops[w] == NeedSlot && Conserved(t, loops, x)
    ensures Conserved(AcquireSlot(t, w), loops[w := HaveSlot], x)
  {
    assert GateSet(AcquireSlot(t, w), x) == GateSet(t, x);
  }

  lemma AcquireAccounts(s: State, w: SubKey)
    requires Accounts(s) && CanPull(s, w, Acquire)
    ensures Accounts(DoPull(s, w, Acquire))
  {
    AcquireTable(s.tab, s.loops, w);
  }

  lemma PullSameTable(s: State, w: SubKey, a: PullAct)
    requires CanPull(s, w, a) && !a.Connect? && !a.Acquire?
    ensures DoPull(s, w, a).tab == s.tab && SamePhases(s.loops, DoPull(s, w, a).loops)
  {
    match a
    case Receive(_) =>
    case CheckReady =>
    case BounceLook =>
    case BounceSend =>
  }

  lemma PullAccounts(s: State, w: SubKey, a: PullAct)
    requires Accounts(s) && CanPull(s, w, a)
    ensures Accounts(DoPull(s, w, a))
  {
    match a
    case Connect(kms, max) => ConnectAccounts(s, w, kms, max);
    case Acquire => AcquireAccounts(s, w);
    case _ => PullSameTable(s, w, a); AccountsFrame(s, DoPull(s, w, a));
  }

  /** Room for one more: the slot the loop holds is not yet owned by any charged stage. */
  lemma CreditHasRoom(s: State, w: SubKey)
    requires SlotInv(s) && w in s.loops && Running(s.loops[w]) && Holding(s.loops[w]) && !s.loops[w].Attributed?
    ensures s.tab.subs[w].inflight < s.tab.subs[w].maxInflight
  {
    forall k | k in CreditSet(s.tab, w) ensures k in GateSet(s.tab, w) {
      assert Backed(s, k);
    }
    SubsetCard(CreditSet(s.tab, w), GateSet(s.tab, w));
    assert Conserved(s.tab, s.loops, w);
  }

  lemma SubsetCard<T>(a: set<T>, b: set<T>)
    requires a <= b
    ensures |a| <= |b|
  {
    assert b == a + (b - a);
  }

  lemma AttributeAccounts(t: Table, loops: map<SubKey, Loop>, k: StageKey, w: SubKey)
    requires AccountsOf(t, loops) && w in loops && loops[w] == Cleared && w.broker == k.broker
    requires t.subs[w].inflight < t.subs[w].maxInflight
    ensures AccountsOf(Attribute(t, k, w), loops[w := Attributed])
  {
    var t', loops' := Attribute(t, k, w), loops[w := Attributed];
    AttributeKeeps(t, k, w);
    AttributeBounded(t, k, w);
    forall x ensures Conserved(t', loops', x) {
      assert Conserved(t, loops, x);
      AttributeBalance(t, k, w, x);
    }
  }

  lemma AttributeBounded(t: Table, k: StageKey, w: SubKey)
    requires Bounded(t) && w in t.subs && t.subs[w].inflight < t.subs[w].maxInflight
    ensures Bounded(Attribute(t, k, w)) && Attribute(t, k, w).subs.Keys == t.subs.Keys
    ensures forall x | x in t.subs :: Attribute(t, k, w).subs[x].slots == t.subs[x].slots
  {
  }

  lemma ClaimAccounts(t: Table, loops: map<SubKey, Loop>, k: StageKey, w: SubKey)
    requires AccountsOf(t, loops) && w in loops && loops[w] == Attributed && w.broker == k.broker
    requires k in t.stages && Stale(loops, t.stages[k].gateSub)
    ensures AccountsOf(ClaimGate(t, k, w), loops[w := Claimed])
  {
    var t', loops' := ClaimGate(t, k, w), loops[w := Claimed];
    ClaimKeeps(t, k, w);
    ClaimBounded(t, loops, k, w);
    forall x ensures Conserved(t', loops', x) {
      ClaimConserves(t, loops, k, w, x);
    }
  }

  lemma ClaimBounded(t: Table, loops: map<SubKey, Loop>, k: StageKey, w: SubKey)
    requires AccountsOf(t, loops) && w in loops && w.broker == k.broker && k in t.stages
    ensures Bounded(ClaimGate(t, k, w))
  {
    assert StageLinked(t, k, t.stages[k]);
  }

  lemma ClaimConserves(t: Table, loops: map<SubKey, Loop>, k: StageKey, w: SubKey, x: SubKey)
    requires Conserved(t, loops, x) && w in loops && loops[w] == Attributed && k in t.stages && Stale(loops, t.stages[k].gateSub)
    ensures Conserved(ClaimGate(t, k, w), loops[w := Claimed], x)
  {
    ClaimBalance(t, k, w, x);
  }

  lemma HandKnown(s: State, w: SubKey)
    requires SlotInv(s) && PlaceInv(s) && w in s.loops && HoldsTask(s, LoopHand(w))
    ensures HandKey(s, w) in s.tab.stages && InHand(s, w, HandKey(s, w))
  {
    var t := HeldTask(s, LoopHand(w));
    assert In(s.at, LoopHand(w), TaskFrame(t));
    assert PlaceOk(s, LoopHand(w), t) && SlotOk(s, LoopHand(w), t);
  }

  lemma AttributeTaskAccounts(s: State, w: SubKey)
    requires SlotInv(s) && PlaceInv(s) && CanSend(s, w, AttributeTask)
    ensures Accounts(DoSend(s, w, AttributeTask))
  {
    if Attributable(s.tab, HandKey(s, w)) {
      CreditHasRoom(s, w);
      AttributeAccounts(s.tab, s.loops, HandKey(s, w), w);
    } else {
      AccountsFrame(s, DoSend(s, w, AttributeTask));
    }
  }

  lemma SendSameTable(s: State, w: SubKey, a: SendAct)
    requires CanSend(s, w, a) && !a.AttributeTask? && !a.Claim?
    ensures DoSend(s, w, a).tab == s.tab && SamePhases(s.loops, DoSend(s, w, a).loops)
  {
  }

  lemma SendAccounts(s: State, w: SubKey, a: SendAct)
    requires SlotInv(s) && PlaceInv(s) && CanSend(s, w, a)
    ensures Accounts(DoSend(s, w, a))
  {
    match a
    case AttributeTask => AttributeTaskAccounts(s, w);
    case Claim => HandKnown(s, w); ClaimAccounts(s.tab, s.loops, HandKey(s, w), w);
    case _ => SendSameTable(s, w, a); AccountsFrame(s, DoSend(s, w, a));
  }

  lemma UnattributeAccounts(t: Table, loops: map<SubKey, Loop>, k: StageKey, w: SubKey)
    requires AccountsOf(t, loops) && w in loops && loops[w] == SendFailed
    requires k in t.stages && (t.stages[k].slotHeld ==> t.stages[k].sentBy == Some(w))
    ensures AccountsOf(Unattribute(t, k), loops[w := FailBounced])
  {
    var t', loops' := Unattribute(t, k), loops[w := FailBounced];
    UnattributeKeeps(t, k);
    UnattributeBounded(t, k);
    forall x ensures Conserved(t', loops', x) {
      assert Conserved(t, loops, x) && Conserved(t, loops, w);
      UnattributeConserves(t, loops, k, w, x);
    }
  }

  lemma UnattributeConserves(t: Table, loops: map<SubKey, Loop>, k: StageKey, w: SubKey, x: SubKey)
    requires WellLinked(t) && Bounded(t) && Conserved(t, loops, x) && w in loops && loops[w] == SendFailed
    requires k in t.stages && (t.stages[k].slotHeld ==> t.stages[k].sentBy == Some(w))
    ensures Conserved(Unattribute(t, k), loops[w := FailBounced], x)
  {
    UnattributeBalance(t, k, x);
    UnattributeBounded(t, k);
  }

  lemma UnattributeBounded(t: Table, k: StageKey)
    requires WellLinked(t) && Bounded(t)
    ensures Bounded(Unattribute(t, k)) && Unattribute(t, k).subs.Keys == t.subs.Keys
    ensures forall x | x in t.subs :: Unattribute(t, k).subs[x].slots == t.subs[x].slots
  {
    if k in t.stages { assert StageLinked(t, k, t.stages[k]); }
  }

  lemma ReturnSlotKeeps(t: Table, w: SubKey)
    requires Bounded(t) && WellLinked(t) && CreditExact(t)
    ensures Bounded(ReturnSlot(t, w)) && WellLinked(ReturnSlot(t, w)) && CreditExact(ReturnSlot(t, w))
    ensures ReturnSlot(t, w).subs.Keys == t.subs.Keys
  {
    ReturnSlotBounded(t, w);
    SlotMoveKeeps(t, ReturnSlot(t, w));
  }

  lemma ReturnSlotBounded(t: Table, w: SubKey)
    requires Bounded(t)
    ensures var t' := ReturnSlot(t, w);
            Bounded(t') && t'.subs.Keys == t.subs.Keys && forall x | x in t.subs :: t'.subs[x].inflight == t.subs[x].inflight
  {
  }

  /** A return takes one token out of a slots channel, or is missed there; no other stream is concerned. */
  lemma ReturnSlotBalance(t: Table, w: SubKey, x: SubKey)
    requires w in t.subs && x in t.subs
    ensures ReturnSlot(t, w).subs[x].slots - Balance(ReturnSlot(t, w), x)
         == t.subs[x].slots - Balance(t, x) - if x == w then 1 else 0
    ensures ReturnSlot(t, w).drift == t.drift.(missed := ReturnSlot(t, w).drift.missed)
    ensures ReturnSlot(t, w).drift.missed[x] == t.drift.missed[x] + if x == w && t.subs[x].slots == 0 then 1 else 0
  {
    SlotMoveKeeps(t, ReturnSlot(t, w));
  }

  lemma ReturnHeldAccounts(t: Table, loops: map<SubKey, Loop>, w: SubKey)
    requires AccountsOf(t, loops) && w in loops && loops[w] == Exiting(true)
    ensures t.subs[w].slots > 0 && AccountsOf(ReturnSlot(t, w), loops[w := Abandoning(0)])
  {
    var t', loops' := ReturnSlot(t, w), loops[w := Abandoning(0)];
    assert Conserved(t, loops, w);
    ReturnSlotKeeps(t, w);
    forall x ensures Conserved(t', loops', x) {
      assert Conserved(t, loops, x);
      if x in t.subs { ReturnHeldConserves(t, loops, w, x); }
    }
  }

  lemma ReturnHeldConserves(t: Table, loops: map<SubKey, Loop>, w: SubKey, x: SubKey)
    requires w in t.subs && x in t.subs && w in loops && loops[w] == Exiting(true) && t.subs[w].slots > 0 && Conserved(t, loops, x)
    ensures Conserved(ReturnSlot(t, w), loops[w := Abandoning(0)], x)
  {
    ReturnSlotBalance(t, w, x);
  }

  lemma ReturnHeldStep(s: State, w: SubKey)
    requires Accounts(s) && CanLeave(s, w, ReturnHeld)
    ensures Accounts(DoLeave(s, w, ReturnHeld))
  {
    if s.loops[w].held { ReturnHeldAccounts(s.tab, s.loops, w); } else { AccountsFrame(s, DoLeave(s, w, ReturnHeld)); }
  }

  lemma LeaveAccounts(s: State, w: SubKey, a: LeaveAct)
    requires SlotInv(s) && PlaceInv(s) && CanLeave(s, w, a)
    ensures Accounts(DoLeave(s, w, a))
  {
    match a
    case UnattributeTask =>
      HandKnown(s, w);
      UnattributeAccounts(s.tab, s.loops, HandKey(s, w), w);
    case ReturnHeld => ReturnHeldStep(s, w);
    case _ => LeavePhases(s, w, a); AccountsFrame(s, DoLeave(s, w, a));
  }

  lemma LeavePhases(s: State, w: SubKey, a: LeaveAct)
    requires CanLeave(s, w, a) && !a.UnattributeTask? && !a.ReturnHeld?
    ensures DoLeave(s, w, a).tab == s.tab && SamePhases(s.loops, DoLeave(s, w, a).loops)
  {
    match a
    case FailLook =>
    case FailSend =>
    case LeaveLoop =>
  }

  lemma AbandonPhases(s: State, w: SubKey, a: AbandonAct)
    requires CanAbandon(s, w, a)
    ensures DoAbandon(s, w, a).tab == s.tab && SamePhases(s.loops, DoAbandon(s, w, a).loops)
  {
  }

  lemma AbandonAccounts(s: State, w: SubKey, a: AbandonAct)
    requires Accounts(s) && CanAbandon(s, w, a)
    ensures Accounts(DoAbandon(s, w, a))
  {
    AbandonPhases(s, w, a);
    AccountsFrame(s, DoAbandon(s, w, a));
  }

  lemma PlaceAccounts(s: State, k: StageKey, a: PlaceAct)
    requires Accounts(s) && Fresh(s) && CanPlace(s, k, a)
    ensures Accounts(DoPlace(s, k, a))
  {
    if a.RegisterTask? {
      RegisterAccounts(s, k, a.task, false, DoPlace(s, k, a));
    } else {
      PlaceSameTable(s, k, a);
      AccountsSame(s, DoPlace(s, k, a));
    }
  }

  lemma PlaceSameTable(s: State, k: StageKey, a: PlaceAct)
    requires CanPlace(s, k, a) && !a.RegisterTask?
    ensures DoPlace(s, k, a).tab == s.tab && DoPlace(s, k, a).loops == s.loops
  {
  }

  lemma ParkAccounts(s: State, k: StageKey, a: ParkAct)
    requires Accounts(s) && CanPark(s, k, a)
    ensures Accounts(DoPark(s, k, a))
  {
    if a.Drop? { ResolveAccounts(s, k, DoPark(s, k, a)); }
    else { AccountsSame(s, DoPark(s, k, a)); }
  }

  lemma ForeignAccounts(s: State, k: StageKey, a: ForeignAct)
    requires SlotInv(s) && CanForeign(s, k, a)
    ensures Accounts(DoForeign(s, k, a))
  {
    var s' := DoForeign(s, k, a);
    if a.ForeignEnqueue? {
      var t := At(s.at, RouteHand(a.peer))[a.i].task;
      assert In(s.at, RouteHand(a.peer), TaskFrame(t));
      assert SlotOk(s, RouteHand(a.peer), t);
      if !Room(s, TaskKindVer(t), k.broker) {
        ForgetKeeps(s.tab, k);
        forall x ensures Conserved(s'.tab, s'.loops, x) {
          assert Conserved(s.tab, s.loops, x);
          ForgetBalance(s.tab, k, x);
        }
      } else {
        AccountsSame(s, s');
      }
    } else {
      AccountsSame(s, s');
    }
  }

  lemma RouteAccounts(s: State, p: PeerKey, a: RouteAct)
    requires Accounts(s) && PlaceInv(s) && CanRoute(s, p, a)
    ensures Accounts(DoRoute(s, p, a))
  {
    var s' := DoRoute(s, p, a);
    match a
    case ReceiveTask(q) =>
      ArrivesFresh(s, p, q);
      var task := HeldTask(s, Wire(p));
      RegisterAccounts(s, StageKey(q.broker, task.leaseToken), task, true, s');
    case ReceiveComplete(q) =>
      var k := StageKey(q.broker, At(s.at, Wire(p))[0].sc.leaseToken);
      if k in s.tab.inflight { ResolveAccounts(s, k, s'); } else { AccountsSame(s, s'); }
    case Publish(_) => AccountsSame(s, s');
    case Cancel => AccountsSame(s, s');
    case Scan => AccountsSame(s, s');
    case Transmit => AccountsSame(s, s');
    case LoseFrame => AccountsSame(s, s');
  }

  /** One captured release less: nothing else of the table moves. */
  lemma UncaptureKeeps(t: Table, w: SubKey)
    requires Bounded(t) && WellLinked(t) && CreditExact(t) && w in t.releases
    ensures var t1 := t.(releases := t.releases - multiset{w});
            && Bounded(t1) && WellLinked(t1) && CreditExact(t1)
            && forall x :: Balance(t1, x) == Balance(t, x) - if x == w then 1 else 0
  {
    var t1 := t.(releases := t.releases - multiset{w});
    SlotMoveKeeps(t, t1);
  }

  lemma ReleaseTable(t: Table, loops: map<SubKey, Loop>, w: SubKey)
    requires AccountsOf(t, loops) && w in t.releases
    ensures AccountsOf(ExecuteRelease(t, w), loops)
  {
    var t1 := t.(releases := t.releases - multiset{w});
    UncaptureKeeps(t, w);
    ReturnSlotKeeps(t1, w);
    forall x ensures Conserved(ExecuteRelease(t, w), loops, x) {
      assert Conserved(t, loops, x);
      if x in t.subs { ReturnSlotBalance(t1, w, x); }
    }
  }

  lemma ReleaseAccounts(s: State, w: SubKey)
    requires Accounts(s) && CanEnv(s, Release(w))
    ensures Accounts(DoEnv(s, Release(w)))
  {
    ReleaseTable(s.tab, s.loops, w);
  }

  lemma EnvAccounts(s: State, a: EnvAct)
    requires Accounts(s) && CanEnv(s, a)
    ensures Accounts(DoEnv(s, a))
  {
    var s' := DoEnv(s, a);
    match a
    case WorkerComplete(w, sc) =>
      var k := StageKey(w.broker, sc.leaseToken);
      if k in s.tab.inflight { ResolveAccounts(s, k, s'); } else { AccountsSame(s, s'); }
    case Release(w) => ReleaseAccounts(s, w);
    case Readiness(_, _, _) => AccountsSame(s, s');
    case DeliverSend(_) => AccountsSame(s, s');
    case Wake(_) => AccountsSame(s, s');
  }

  // ---------------------------------------------------------------- every step

  lemma FanSameTable(s: State, w: SubKey, i: nat, a: FanAct)
    requires CanFan(s, w, i, a)
    ensures DoFan(s, w, i, a).tab == s.tab && DoFan(s, w, i, a).loops == s.loops
  {
  }

  lemma AccountsKept(s: State, step: Step)
    requires SlotInv(s) && PlaceInv(s) && Can(s, step)
    ensures Accounts(Do(s, step))
  {
    match step
    case OnPull(w, a) => PullAccounts(s, w, a);
    case OnSend(w, a) => SendAccounts(s, w, a);
    case OnLeave(w, a) => LeaveAccounts(s, w, a);
    case OnAbandon(w, a) => AbandonAccounts(s, w, a);
    case OnFan(w, i, a) => FanSameTable(s, w, i, a); AccountsSame(s, DoFan(s, w, i, a));
    case OnPlace(k, a) => PlaceAccounts(s, k, a);
    case OnPark(k, a) => ParkAccounts(s, k, a);
    case OnForeign(k, a) => ForeignAccounts(s, k, a);
    case OnRoute(p, a) => RouteAccounts(s, p, a);
    case OnEnv(a) => EnvAccounts(s, a);
  }

  /** Every step of the protocol keeps the slot invariant. */
  lemma SlotInvKept(s: State, step: Step)
    requires SlotInv(s) && PlaceInv(s) && Can(s, step)
    ensures SlotInv(Do(s, step))
  {
    AccountsKept(s, step);
    SlotPlaces.PlacedKept(s, step);
  }
}
