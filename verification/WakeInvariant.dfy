/**
  No sleeping waiter: a stage whose worker stream went away, or whose executing peer
  departed, always has something that wakes the goroutine waiting for it.
 */
module WakeInvariant {
  import opened Wrappers
  import opened BrokerTypes
  import opened SlotTable
  import opened Custody
  import opened Protocol
  import opened PlaceInvariant
  import opened SlotInvariant

  /** The waiter has taken a value, or given up: it will drop the stage by itself. */
  predicate Awake(x: Waiter) {
    x.ForwarderTook? || x.Dropping? || x.Done?
  }

  ghost predicate Woken(s: State, k: StageKey) {
    k !in s.tab.inflight || k in s.mail.results || (k in s.mail.waiters && Awake(s.mail.waiters[k]))
  }

  /** How many tokens of its sent slice a stream's deferred abandon has dealt with. */
  function Progress(l: Loop, n: nat): nat {
    match l
    case Abandoning(i) => if i <= n then i else n
    case AbandonSending(i) => if i <= n then i else n
    case Removing => n
    case Exited => n
    case _ => 0
  }

  ghost predicate StillListed(s: State, w: SubKey, tok: Token) {
    var sent := SentSlice(s, w);
    tok in sent[Progress(if w in s.loops then s.loops[w] else Exited, |sent|)..]
  }

  ghost predicate SentOk(s: State, w: SubKey, t: StageTask) {
    Woken(s, StageKey(w.broker, t.leaseToken)) || StillListed(s, w, t.leaseToken)
  }

  ghost predicate WaiterOk(s: State, k: StageKey) {
    k in s.mail.waiters ==>
      match s.mail.waiters[k]
      case Done(_) => k !in s.tab.inflight
      case Pushed(p) => p in s.peers && p.broker == k.broker
      case ParkedRemote(p) => p in s.peers && p.broker == k.broker
      case Forwarder(p) => p in s.peers && p.broker == k.broker
      case ForwarderTook(p, _) => p in s.peers && p.broker == k.broker
      case _ => true
  }

  ghost predicate SentInv(s: State) {
    forall w, t :: In(s.at, SentTo(w), TaskFrame(t)) ==> SentOk(s, w, t)
  }

  ghost predicate WakeInv(s: State) {
    SentInv(s) && (forall k :: WaiterOk(s, k))
  }

  // ---------------------------------------------------------------- waking is never undone

  ghost predicate StaysAwake(s: State, s': State, k: StageKey) {
    && (k in s'.tab.inflight ==> k in s.tab.inflight)
    && (k in s.mail.results ==> k in s'.mail.results || (k in s'.mail.waiters && Awake(s'.mail.waiters[k])))
    && (k in s.mail.waiters && Awake(s.mail.waiters[k]) ==> k in s'.mail.waiters && Awake(s'.mail.waiters[k]))
  }

  ghost predicate NeverSleeps(s: State, s': State) {
    forall k | k in s.tab.stages :: StaysAwake(s, s', k)
  }

  /** No task was handed to a worker, and no sent slice changed. */
  ghost predicate SentStays(s: State, s': State) {
    s'.sent == s.sent && (forall w :: At(s'.at, SentTo(w)) == At(s.at, SentTo(w)))
  }

  /** No abandon got further than it was. */
  ghost predicate NoProgress(s: State, s': State) {
    forall w | w in s.loops :: w in s'.loops && Progress(s'.loops[w], |SentSlice(s', w)|) <= Progress(s.loops[w], |SentSlice(s, w)|)
  }

  lemma PullNeverSleeps(s: State, w: SubKey, a: PullAct)
    requires CanPull(s, w, a)
    ensures NeverSleeps(s, DoPull(s, w, a)) && SentStays(s, DoPull(s, w, a)) && NoProgress(s, DoPull(s, w, a))
  {
    PullSentStays(s, w, a);
    PullNoProgress(s, w, a);
  }

  lemma PullSentStays(s: State, w: SubKey, a: PullAct)
    requires CanPull(s, w, a)
    ensures SentStays(s, DoPull(s, w, a))
  {
  }

  lemma PullNoProgress(s: State, w: SubKey, a: PullAct)
    requires CanPull(s, w, a)
    ensures NoProgress(s, DoPull(s, w, a))
  {
  }

  lemma SendNeverSleeps(s: State, w: SubKey, a: SendAct)
    requires CanSend(s, w, a)
    ensures NeverSleeps(s, DoSend(s, w, a))
  {
  }

  lemma LeaveNeverSleeps(s: State, w: SubKey, a: LeaveAct)
    requires CanLeave(s, w, a)
    ensures NeverSleeps(s, DoLeave(s, w, a)) && SentStays(s, DoLeave(s, w, a))
  {
  }

  lemma LeaveNoProgress(s: State, w: SubKey, a: LeaveAct)
    requires CanLeave(s, w, a)
    ensures NoProgress(s, DoLeave(s, w, a))
  {
  }

  lemma AbandonNeverSleeps(s: State, w: SubKey, a: AbandonAct)
    requires CanAbandon(s, w, a)
    ensures NeverSleeps(s, DoAbandon(s, w, a)) && SentStays(s, DoAbandon(s, w, a))
  {
  }

  lemma PlaceKeepsSent(s: State, k: StageKey, a: PlaceAct)
    requires CanPlace(s, k, a)
    ensures SentStays(s, DoPlace(s, k, a)) && DoPlace(s, k, a).loops == s.loops
  {
  }

  lemma RegisterNeverSleeps(s: State, k: StageKey, task: StageTask)
    requires Fresh(s) && CanPlace(s, k, RegisterTask(task))
    ensures NeverSleeps(s, DoPlace(s, k, RegisterTask(task)))
  {
    assert k !in s.tab.stages;
  }

  lemma WaitNeverSleeps(s: State, k: StageKey, a: PlaceAct)
    requires CanPlace(s, k, a) && !a.RegisterTask?
    ensures NeverSleeps(s, DoPlace(s, k, a))
  {
  }

  lemma PlaceNeverSleeps(s: State, k: StageKey, a: PlaceAct)
    requires Fresh(s) && CanPlace(s, k, a)
    ensures NeverSleeps(s, DoPlace(s, k, a)) && SentStays(s, DoPlace(s, k, a)) && DoPlace(s, k, a).loops == s.loops
  {
    PlaceKeepsSent(s, k, a);
    if a.RegisterTask? { RegisterNeverSleeps(s, k, a.task); } else { WaitNeverSleeps(s, k, a); }
  }

  lemma ParkNeverSleeps(s: State, k: StageKey, a: ParkAct)
    requires CanPark(s, k, a)
    ensures NeverSleeps(s, DoPark(s, k, a)) && SentStays(s, DoPark(s, k, a)) && DoPark(s, k, a).loops == s.loops
  {
  }

  lemma ForeignNeverSleeps(s: State, k: StageKey, a: ForeignAct)
    requires CanForeign(s, k, a)
    ensures NeverSleeps(s, DoForeign(s, k, a)) && SentStays(s, DoForeign(s, k, a)) && DoForeign(s, k, a).loops == s.loops
  {
  }

  lemma RouteNeverSleeps(s: State, p: PeerKey, a: RouteAct)
    requires PlaceInv(s) && CanRoute(s, p, a)
    ensures NeverSleeps(s, DoRoute(s, p, a)) && SentStays(s, DoRoute(s, p, a)) && DoRoute(s, p, a).loops == s.loops
  {
    if a.ReceiveTask? { ArrivesFresh(s, p, a.at); }
  }

  lemma EnvNeverSleeps(s: State, a: EnvAct)
    requires CanEnv(s, a)
    ensures NeverSleeps(s, DoEnv(s, a)) && SentStays(s, DoEnv(s, a)) && DoEnv(s, a).loops == s.loops
  {
  }

  lemma FanNeverSleeps(s: State, w: SubKey, i: nat, a: FanAct)
    requires CanFan(s, w, i, a)
    ensures NeverSleeps(s, DoFan(s, w, i, a)) && SentStays(s, DoFan(s, w, i, a)) && DoFan(s, w, i, a).loops == s.loops
  {
  }

  // ---------------------------------------------------------------- sent tokens stay accounted for

  lemma SentTokenStays(s: State, s': State, w: SubKey, t: StageTask)
    requires SentOk(s, w, t) && Known(s, w.broker, t) && NeverSleeps(s, s')
    requires SentSlice(s', w) == SentSlice(s, w) && w in s.loops && w in s'.loops
    requires Progress(s'.loops[w], |SentSlice(s', w)|) <= Progress(s.loops[w], |SentSlice(s, w)|)
    ensures SentOk(s', w, t)
  {
    var k, sent := StageKey(w.broker, t.leaseToken), SentSlice(s, w);
    assert StaysAwake(s, s', k);
    if StillListed(s, w, t.leaseToken) {
      var i, j := Progress(s.loops[w], |sent|), Progress(s'.loops[w], |sent|);
      assert sent[i..] == sent[j..][i - j..];
    }
  }

  lemma SentFrame(s: State, s': State)
    requires SentInv(s) && PlaceInv(s) && s.tab.subs.Keys == s.loops.Keys
    requires NeverSleeps(s, s') && SentStays(s, s') && NoProgress(s, s')
    ensures SentInv(s')
  {
    forall w, t | In(s'.at, SentTo(w), TaskFrame(t)) ensures SentOk(s', w, t) {
      assert In(s.at, SentTo(w), TaskFrame(t));
      assert PlaceOk(s, SentTo(w), t);
      SentTokenStays(s, s', w, t);
    }
  }

  lemma SendKeepsSent(s: State, w: SubKey, a: SendAct)
    requires SentInv(s) && PlaceInv(s) && s.tab.subs.Keys == s.loops.Keys && CanSend(s, w, a)
    ensures SentInv(DoSend(s, w, a))
  {
    var s' := DoSend(s, w, a);
    forall x, t | In(s'.at, SentTo(x), TaskFrame(t)) ensures SentOk(s', x, t) {
      SendSentTo(s, w, a, x, t);
      if In(s.at, SentTo(x), TaskFrame(t)) {
        assert PlaceOk(s, SentTo(x), t) && SentOk(s, x, t);
        SendKeepsToken(s, w, a, x, t);
      }
    }
  }

  /** A task that has just been handed over is the last of the sent slice. */
  lemma SendSentTo(s: State, w: SubKey, a: SendAct, x: SubKey, t: StageTask)
    requires CanSend(s, w, a) && In(DoSend(s, w, a).at, SentTo(x), TaskFrame(t))
    ensures In(s.at, SentTo(x), TaskFrame(t)) || SentOk(DoSend(s, w, a), x, t)
  {
  }

  lemma SendKeepsToken(s: State, w: SubKey, a: SendAct, x: SubKey, t: StageTask)
    requires CanSend(s, w, a) && x in s.loops && SentOk(s, x, t) && Known(s, x.broker, t)
    ensures SentOk(DoSend(s, w, a), x, t)
  {
    if x == w && a.Compact? { CompactKeeps(s, w, t); }
    else if x == w && a.SendOk? { AppendKeeps(s, w, t); }
    else {
      SendNeverSleeps(s, w, a);
      SentTokenStays(s, DoSend(s, w, a), x, t);
    }
  }

  /** Pruning resolved tokens out of the sent slice loses nothing that still needs waking. */
  lemma CompactKeeps(s: State, w: SubKey, t: StageTask)
    requires CanSend(s, w, Compact) && SentOk(s, w, t) && Known(s, w.broker, t)
    ensures SentOk(DoSend(s, w, Compact), w, t)
  {
    SendNeverSleeps(s, w, Compact);
    assert StaysAwake(s, DoSend(s, w, Compact), StageKey(w.broker, t.leaseToken));
    var sent := SentSlice(s, w);
    assert sent[0..] == sent;
    var kept := KeepLive(sent, w.broker, s.tab.inflight);
    assert kept[0..] == kept;
  }

  lemma AppendKeeps(s: State, w: SubKey, t: StageTask)
    requires CanSend(s, w, SendOk) && SentOk(s, w, t) && Known(s, w.broker, t)
    ensures SentOk(DoSend(s, w, SendOk), w, t)
  {
    SendNeverSleeps(s, w, SendOk);
    assert StaysAwake(s, DoSend(s, w, SendOk), StageKey(w.broker, t.leaseToken));
    var sent := SentSlice(s, w);
    assert sent[0..] == sent;
    var sent' := sent + [HeldTask(s, LoopHand(w)).leaseToken];
    assert sent'[0..] == sent';
  }

  /** abandon passes a token only once it is resolved or a value waits for its waiter. */
  lemma AbandonKeepsSent(s: State, w: SubKey, a: AbandonAct)
    requires SentInv(s) && PlaceInv(s) && s.tab.subs.Keys == s.loops.Keys && CanAbandon(s, w, a)
    ensures SentInv(DoAbandon(s, w, a))
  {
    var s' := DoAbandon(s, w, a);
    AbandonNeverSleeps(s, w, a);
    forall x, t | In(s'.at, SentTo(x), TaskFrame(t)) ensures SentOk(s', x, t) {
      assert In(s.at, SentTo(x), TaskFrame(t));
      assert PlaceOk(s, SentTo(x), t);
      if x == w { AbandonPasses(s, w, a, t); } else { SentTokenStays(s, s', x, t); }
    }
  }

  lemma TailSplit(tokens: seq<Token>, i: nat)
    requires i < |tokens|
    ensures tokens[i..] == [tokens[i]] + tokens[i + 1..]
    ensures forall tok :: tok in tokens[i..] <==> tok == tokens[i] || tok in tokens[i + 1..]
  {
    assert tokens[i..] == [tokens[i]] + tokens[i + 1..];
  }

  lemma AbandonPasses(s: State, w: SubKey, a: AbandonAct, t: StageTask)
    requires CanAbandon(s, w, a) && SentOk(s, w, t) && Known(s, w.broker, t)
    ensures SentOk(DoAbandon(s, w, a), w, t)
  {
    var s' := DoAbandon(s, w, a);
    AbandonNeverSleeps(s, w, a);
    assert StaysAwake(s, s', StageKey(w.broker, t.leaseToken));
    var sent := SentSlice(s, w);
    if (a.AbandonLook? || a.AbandonSend?) && StillListed(s, w, t.leaseToken) {
      TailSplit(sent, s.loops[w].i);
    }
  }

  // ---------------------------------------------------------------- waiters know their peers

  ghost predicate PeersStay(s: State, s': State) {
    s.peers.Keys <= s'.peers.Keys
  }

  ghost predicate SameWaiter(s: State, s': State, x: StageKey) {
    && x in s.mail.waiters && x in s'.mail.waiters && s'.mail.waiters[x] == s.mail.waiters[x]
    && (x in s'.tab.inflight ==> x in s.tab.inflight)
  }

  /** Only the waiter of k (if any) moved, and no stage of a known key came back in flight. */
  lemma WaitersFrame(s: State, s': State, k: Option<StageKey>)
    requires (forall x :: WaiterOk(s, x)) && PeersStay(s, s')
    requires forall x | x in s'.mail.waiters && k != Some(x) :: SameWaiter(s, s', x)
    requires k.Some? ==> WaiterOk(s', k.value)
    ensures forall x :: WaiterOk(s', x)
  {
    forall x ensures WaiterOk(s', x) {
      assert WaiterOk(s, x);
    }
  }

  lemma PullWaiters(s: State, w: SubKey, a: PullAct)
    requires (forall x :: WaiterOk(s, x)) && CanPull(s, w, a)
    ensures forall x :: WaiterOk(DoPull(s, w, a), x)
  {
    WaitersFrame(s, DoPull(s, w, a), None);
  }

  lemma SendWaiters(s: State, w: SubKey, a: SendAct)
    requires (forall x :: WaiterOk(s, x)) && CanSend(s, w, a)
    ensures forall x :: WaiterOk(DoSend(s, w, a), x)
  {
    WaitersFrame(s, DoSend(s, w, a), None);
  }

  lemma LeaveWaiters(s: State, w: SubKey, a: LeaveAct)
    requires (forall x :: WaiterOk(s, x)) && CanLeave(s, w, a)
    ensures forall x :: WaiterOk(DoLeave(s, w, a), x)
  {
    WaitersFrame(s, DoLeave(s, w, a), None);
  }

  lemma SideWaiters(s: State, step: Step)
    requires (forall x :: WaiterOk(s, x)) && Can(s, step) && (step.OnAbandon? || step.OnFan?)
    ensures forall x :: WaiterOk(Do(s, step), x)
  {
    match step
    case OnAbandon(w, a) => WaitersFrame(s, DoAbandon(s, w, a), None);
    case OnFan(w, i, a) => WaitersFrame(s, DoFan(s, w, i, a), None);
  }

  lemma EnvWaiters(s: State, a: EnvAct)
    requires (forall x :: WaiterOk(s, x)) && CanEnv(s, a)
    ensures forall x :: WaiterOk(DoEnv(s, a), x)
  {
    WaitersFrame(s, DoEnv(s, a), None);
  }

  lemma PlaceWaiters(s: State, k: StageKey, a: PlaceAct)
    requires (forall x :: WaiterOk(s, x)) && CanPlace(s, k, a)
    ensures forall x :: WaiterOk(DoPlace(s, k, a), x)
  {
    assert WaiterOk(s, k);
    WaitersFrame(s, DoPlace(s, k, a), Some(k));
  }

  lemma ParkWaiters(s: State, k: StageKey, a: ParkAct)
    requires (forall x :: WaiterOk(s, x)) && s.tab.inflight <= s.tab.stages.Keys && CanPark(s, k, a)
    ensures forall x :: WaiterOk(DoPark(s, k, a), x)
  {
    assert WaiterOk(s, k);
    WaitersFrame(s, DoPark(s, k, a), Some(k));
  }

  lemma ForeignWaiters(s: State, k: StageKey, a: ForeignAct)
    requires (forall x :: WaiterOk(s, x)) && CanForeign(s, k, a)
    ensures forall x :: WaiterOk(DoForeign(s, k, a), x)
  {
    assert WaiterOk(s, k);
    WaitersFrame(s, DoForeign(s, k, a), Some(k));
  }

  lemma RouteWaiters(s: State, p: PeerKey, a: RouteAct)
    requires (forall x :: WaiterOk(s, x)) && CanRoute(s, p, a)
    ensures forall x :: WaiterOk(DoRoute(s, p, a), x)
  {
    var k := if a.ReceiveTask? then Some(StageKey(a.at.broker, HeldTask(s, Wire(p)).leaseToken)) else None;
    WaitersFrame(s, DoRoute(s, p, a), k);
  }

  // ---------------------------------------------------------------- every step

  lemma WaitersKept(s: State, step: Step)
    requires (forall x :: WaiterOk(s, x)) && s.tab.inflight <= s.tab.stages.Keys && Can(s, step)
    ensures forall x :: WaiterOk(Do(s, step), x)
  {
    match step
    case OnPull(w, a) => PullWaiters(s, w, a);
    case OnSend(w, a) => SendWaiters(s, w, a);
    case OnLeave(w, a) => LeaveWaiters(s, w, a);
    case OnPlace(k, a) => PlaceWaiters(s, k, a);
    case OnPark(k, a) => ParkWaiters(s, k, a);
    case OnForeign(k, a) => ForeignWaiters(s, k, a);
    case OnRoute(p, a) => RouteWaiters(s, p, a);
    case OnEnv(a) => EnvWaiters(s, a);
    case _ => SideWaiters(s, step);
  }

  lemma SentKept(s: State, step: Step)
    requires SentInv(s) && PlaceInv(s) && s.tab.subs.Keys == s.loops.Keys && Can(s, step)
    ensures SentInv(Do(s, step))
  {
    match step
    case OnPull(w, a) => PullNeverSleeps(s, w, a); SentFrame(s, DoPull(s, w, a));
    case OnSend(w, a) => SendKeepsSent(s, w, a);
    case OnLeave(w, a) => LeaveNeverSleeps(s, w, a); LeaveNoProgress(s, w, a); SentFrame(s, DoLeave(s, w, a));
    case OnAbandon(w, a) => AbandonKeepsSent(s, w, a);
    case OnFan(w, i, a) => FanNeverSleeps(s, w, i, a); SentFrame(s, DoFan(s, w, i, a));
    case OnPlace(k, a) => PlaceNeverSleeps(s, k, a); SentFrame(s, DoPlace(s, k, a));
    case OnPark(k, a) => ParkNeverSleeps(s, k, a); SentFrame(s, DoPark(s, k, a));
    case OnForeign(k, a) => ForeignNeverSleeps(s, k, a); SentFrame(s, DoForeign(s, k, a));
    case OnRoute(p, a) => RouteNeverSleeps(s, p, a); SentFrame(s, DoRoute(s, p, a));
    case OnEnv(a) => EnvNeverSleeps(s, a); SentFrame(s, DoEnv(s, a));
  }

  /** Every step of the protocol keeps the wake invariant. */
  lemma WakeInvKept(s: State, step: Step)
    requires WakeInv(s) && PlaceInv(s) && SlotInv(s) && Can(s, step)
    ensures WakeInv(Do(s, step))
  {
    SentKept(s, step);
    WaitersKept(s, step);
  }
}
