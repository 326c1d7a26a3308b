/**
  When a genuine Complete can lose. The result channel of a stage holds one value; a
  stream's abandon and a peer's departure send their own failures into it outside the
  lock. Here is exactly when one of those can still get there before a Complete that has
  just resolved the stage, and what the waiter can receive otherwise.
 */
module ResultRace {
  import opened Wrappers
  import opened BrokerTypes
  import opened SlotTable
  import opened Custody
  import opened Protocol
  import opened PlaceInvariant
  import opened SlotInvariant
  import opened WakeInvariant
  import opened AwayInvariant
  import opened BrokerTheorems
  import opened Departures

  // ---------------------------------------------------------------- who may fill the channel

  /** The stage whose channel a stream's abandon has looked up and is about to send on. */
  function AbandonTarget(s: State, w: SubKey): Option<StageKey> {
    if w in s.loops && s.loops[w].AbandonSending? && s.loops[w].i < |SentSlice(s, w)|
    then Some(StageKey(w.broker, SentSlice(s, w)[s.loops[w].i])) else None
  }

  /** The failures a broker makes up itself. */
  predicate BrokerMade(sc: StageComplete, k: StageKey) {
    sc == StreamDropped(k.token) || sc == PeerDeparted()
  }

  /** A made-up failure is in the channel, or on its way there from outside the lock. */
  ghost predicate Contested(s: State, k: StageKey) {
    k in s.mail.results || k in s.mail.wakes || exists w :: AbandonTarget(s, w) == Some(k)
  }

  // ---------------------------------------------------------------- the invariant

  ghost predicate DeliveriesOk(s: State) {
    forall d | d in s.mail.deliveries :: d.key !in s.tab.inflight && d.key in s.tab.stages
  }

  /** While a stage is in flight its channel can only hold a made-up failure. */
  ghost predicate ResultsOk(s: State) {
    forall k | k in s.mail.results :: k in s.tab.stages && (k in s.tab.inflight ==> BrokerMade(s.mail.results[k], k))
  }

  ghost predicate SendersOk(s: State) {
    && (forall w :: AbandonTarget(s, w).Some? ==> AbandonTarget(s, w).value in s.tab.stages)
    && (forall k | k in s.mail.wakes :: k in s.tab.stages)
  }

  ghost predicate RaceInv(s: State) {
    DeliveriesOk(s) && ResultsOk(s) && SendersOk(s)
  }

  /**
    The Complete sc, and nothing else, can fill the channel of k: it is pending, once, with
    the channel empty, or it has been sent.
   */
  ghost predicate Reserved(s: State, k: StageKey, sc: StageComplete) {
    && k in s.tab.stages && k !in s.tab.inflight && k !in s.mail.wakes && (forall w :: AbandonTarget(s, w) != Some(k))
    && (forall d | d in s.mail.deliveries && d.key == k :: d.sc == sc) && s.mail.deliveries[Delivery(k, sc)] <= 1
    && (Delivery(k, sc) in s.mail.deliveries ==> k !in s.mail.results)
    && (k in s.mail.results ==> s.mail.results[k] == sc)
  }

  // ---------------------------------------------------------------- steps that send nothing

  ghost predicate TargetsStay(s: State, s': State) {
    forall w :: AbandonTarget(s', w) == None || AbandonTarget(s', w) == AbandonTarget(s, w)
  }

  ghost predicate OnlyFreshInflight(t: Table, t': Table) {
    t.stages.Keys <= t'.stages.Keys && forall k | k in t'.inflight :: k in t.inflight || k !in t.stages
  }

  /** Nothing is sent on any channel or prepared for it; values may be taken out, and new stages registered. */
  ghost predicate NoSends(s: State, s': State) {
    && s'.mail.deliveries == s.mail.deliveries && s'.mail.wakes == s.mail.wakes
    && (forall k | k in s'.mail.results :: k in s.mail.results && s'.mail.results[k] == s.mail.results[k])
    && OnlyFreshInflight(s.tab, s'.tab) && TargetsStay(s, s')
  }

  lemma NoSendsRace(s: State, s': State)
    requires RaceInv(s) && NoSends(s, s')
    ensures RaceInv(s')
  {
    forall w | AbandonTarget(s', w).Some? ensures AbandonTarget(s', w).value in s'.tab.stages {
      assert AbandonTarget(s', w) == AbandonTarget(s, w);
    }
  }

  lemma NoSendsReserved(s: State, s': State, k: StageKey, sc: StageComplete)
    requires Reserved(s, k, sc) && NoSends(s, s')
    ensures Reserved(s', k, sc)
  {
  }

  /** A loop that moves to a phase in which it sends to nobody. */
  lemma LoopNoSends(s: State, s': State, w: SubKey, phase: Loop)
    requires s'.mail == s.mail && s'.sent == s.sent && s'.loops == s.loops[w := phase] && !phase.AbandonSending?
    requires s'.tab.stages.Keys == s.tab.stages.Keys && s'.tab.inflight == s.tab.inflight
    ensures NoSends(s, s')
  {
  }

  lemma PullNoSends(s: State, w: SubKey, a: PullAct)
    requires CanPull(s, w, a)
    ensures NoSends(s, DoPull(s, w, a))
  {
    LoopNoSends(s, DoPull(s, w, a), w, DoPull(s, w, a).loops[w]);
  }

  lemma SendNoSends(s: State, w: SubKey, a: SendAct)
    requires CanSend(s, w, a)
    ensures NoSends(s, DoSend(s, w, a))
  {
    match a
    case AttributeTask =>
    case Claim =>
    case SendOk => SameTable(s.tab);
    case SendError => SameTable(s.tab);
    case Compact => SameTable(s.tab);
  }

  lemma LeaveNoSends(s: State, w: SubKey, a: LeaveAct)
    requires CanLeave(s, w, a)
    ensures NoSends(s, DoLeave(s, w, a))
  {
    match a
    case UnattributeTask => UnattributeStays(s.tab, HandKey(s, w));
    case FailLook => SameTable(s.tab);
    case FailSend => SameTable(s.tab);
    case LeaveLoop => SameTable(s.tab);
    case ReturnHeld => ReturnStays(s.tab, w); SameTable(s.tab);
  }

  lemma FanNoSends(s: State, w: SubKey, i: nat, a: FanAct)
    requires CanFan(s, w, i, a)
    ensures NoSends(s, DoFan(s, w, i, a))
  {
  }

  lemma ExitNoSends(s: State, w: SubKey, a: AbandonAct)
    requires CanAbandon(s, w, a) && (a.CloseStop? || a.Remove?)
    ensures NoSends(s, DoAbandon(s, w, a))
  {
  }

  lemma PlaceNoSends(s: State, k: StageKey, a: PlaceAct)
    requires Fresh(s) && CanPlace(s, k, a)
    ensures NoSends(s, DoPlace(s, k, a))
  {
    if a.RegisterTask? { assert k !in s.tab.stages; }
    PlaceTargets(s, k, a);
  }

  lemma PlaceTargets(s: State, k: StageKey, a: PlaceAct)
    requires CanPlace(s, k, a)
    ensures TargetsStay(s, DoPlace(s, k, a))
  {
  }

  lemma ParkNoSends(s: State, k: StageKey, a: ParkAct)
    requires CanPark(s, k, a)
    ensures NoSends(s, DoPark(s, k, a))
  {
    ResolveStays(s.tab, k);
  }

  lemma ForeignNoSends(s: State, k: StageKey, a: ForeignAct)
    requires CanForeign(s, k, a)
    ensures NoSends(s, DoForeign(s, k, a))
  {
    match a
    case ForeignEnqueue(_, _) =>
    case ForwardTake =>
    case ForwardHome =>
    case OwnerGone =>
  }

  lemma RouteNoSends(s: State, p: PeerKey, a: RouteAct)
    requires PlaceInv(s) && CanRoute(s, p, a) && !a.Scan? && !a.ReceiveComplete?
    ensures NoSends(s, DoRoute(s, p, a))
  {
    match a
    case ReceiveTask(q) => ArrivesFresh(s, p, q);
    case Publish(_) =>
    case Cancel =>
    case Transmit =>
    case LoseFrame =>
  }

  lemma EnvNoSends(s: State, a: EnvAct)
    requires CanEnv(s, a) && (a.Readiness? || a.Release?)
    ensures NoSends(s, DoEnv(s, a))
  {
    match a
    case Readiness(_, _, _) =>
    case Release(_) =>
  }

  // ---------------------------------------------------------------- steps that send

  /** abandon looks a token up: it becomes a sender only for a stage still in flight. */
  lemma LookRace(s: State, w: SubKey)
    requires s.tab.inflight <= s.tab.stages.Keys && CanAbandon(s, w, AbandonLook)
    ensures RaceInv(s) ==> RaceInv(DoAbandon(s, w, AbandonLook))
    ensures forall k, sc :: Reserved(s, k, sc) ==> Reserved(DoAbandon(s, w, AbandonLook), k, sc)
  {
    var s' := DoAbandon(s, w, AbandonLook);
    forall x ensures AbandonTarget(s', x) == AbandonTarget(s, x) || AbandonTarget(s', x) == None
                     || AbandonTarget(s', x).value in s.tab.inflight
    {
    }
  }

  lemma SendRace(s: State, w: SubKey)
    requires CanAbandon(s, w, AbandonSend)
    ensures RaceInv(s) ==> RaceInv(DoAbandon(s, w, AbandonSend))
    ensures forall k, sc :: Reserved(s, k, sc) ==> Reserved(DoAbandon(s, w, AbandonSend), k, sc)
  {
    var s' := DoAbandon(s, w, AbandonSend);
    assert AbandonTarget(s, w) == Some(StageKey(w.broker, SentSlice(s, w)[s.loops[w].i]));
    forall x ensures AbandonTarget(s', x) == AbandonTarget(s, x) || AbandonTarget(s', x) == None { }
  }

  lemma DeliverRace(s: State, b: nat, sc: StageComplete)
    requires s.tab.inflight <= s.tab.stages.Keys
    ensures RaceInv(s) ==> RaceInv(DeliverAt(s, b, sc))
    ensures forall k, c :: Reserved(s, k, c) ==> Reserved(DeliverAt(s, b, sc), k, c)
  {
    if RaceInv(s) { DeliverKeepsRace(s, b, sc); }
    forall k, c | Reserved(s, k, c) ensures Reserved(DeliverAt(s, b, sc), k, c) { DeliverReserved(s, b, sc, k, c); }
  }

  lemma DeliverKeepsRace(s: State, b: nat, sc: StageComplete)
    requires RaceInv(s) && s.tab.inflight <= s.tab.stages.Keys
    ensures RaceInv(DeliverAt(s, b, sc))
  {
    var s' := DeliverAt(s, b, sc);
    ResolveStays(s.tab, StageKey(b, sc.leaseToken));
    forall x ensures AbandonTarget(s', x) == AbandonTarget(s, x) { }
  }

  lemma DeliverReserved(s: State, b: nat, sc: StageComplete, k: StageKey, c: StageComplete)
    requires Reserved(s, k, c)
    ensures Reserved(DeliverAt(s, b, sc), k, c)
  {
    var s' := DeliverAt(s, b, sc);
    ResolveStays(s.tab, StageKey(b, sc.leaseToken));
    forall x ensures AbandonTarget(s', x) == AbandonTarget(s, x) { }
  }

  lemma DeliverSendRace(s: State, d: Delivery)
    requires CanEnv(s, DeliverSend(d))
    ensures RaceInv(s) ==> RaceInv(DoEnv(s, DeliverSend(d)))
    ensures forall k, sc :: Reserved(s, k, sc) ==> Reserved(DoEnv(s, DeliverSend(d)), k, sc)
  {
    var s' := DoEnv(s, DeliverSend(d));
    forall x ensures AbandonTarget(s', x) == AbandonTarget(s, x) { }
  }

  lemma WakeRace(s: State, k: StageKey)
    requires CanEnv(s, Wake(k))
    ensures RaceInv(s) ==> RaceInv(DoEnv(s, Wake(k)))
    ensures forall x, sc :: Reserved(s, x, sc) ==> Reserved(DoEnv(s, Wake(k)), x, sc)
  {
    var s' := DoEnv(s, Wake(k));
    forall x ensures AbandonTarget(s', x) == AbandonTarget(s, x) { }
  }

  lemma ScanRace(s: State, p: PeerKey)
    requires s.tab.inflight <= s.tab.stages.Keys && CanRoute(s, p, Scan)
    ensures RaceInv(s) ==> RaceInv(DoRoute(s, p, Scan))
    ensures forall k, sc :: Reserved(s, k, sc) ==> Reserved(DoRoute(s, p, Scan), k, sc)
  {
    var s' := DoRoute(s, p, Scan);
    forall x ensures AbandonTarget(s', x) == AbandonTarget(s, x) { }
  }

  // ---------------------------------------------------------------- every step

  ghost predicate RaceKept(s: State, s': State) {
    (RaceInv(s) ==> RaceInv(s')) && (forall k, sc :: Reserved(s, k, sc) ==> Reserved(s', k, sc))
  }

  lemma NoSendsKept(s: State, s': State)
    requires NoSends(s, s')
    ensures RaceKept(s, s')
  {
    if RaceInv(s) { NoSendsRace(s, s'); }
    forall k, sc | Reserved(s, k, sc) ensures Reserved(s', k, sc) { NoSendsReserved(s, s', k, sc); }
  }

  lemma AbandonRace(s: State, w: SubKey, a: AbandonAct)
    requires s.tab.inflight <= s.tab.stages.Keys && CanAbandon(s, w, a)
    ensures RaceKept(s, DoAbandon(s, w, a))
  {
    match a
    case AbandonLook => LookRace(s, w);
    case AbandonSend => SendRace(s, w);
    case CloseStop => ExitNoSends(s, w, a); NoSendsKept(s, DoAbandon(s, w, a));
    case Remove => ExitNoSends(s, w, a); NoSendsKept(s, DoAbandon(s, w, a));
  }

  lemma ArriveRace(s: State, p: PeerKey, q: PeerKey)
    requires s.tab.inflight <= s.tab.stages.Keys && CanRoute(s, p, ReceiveComplete(q))
    ensures RaceKept(s, DoRoute(s, p, ReceiveComplete(q)))
  {
    var s1 := s.(at := Take(s.at, Wire(p), 0));
    forall x ensures AbandonTarget(s1, x) == AbandonTarget(s, x) { }
    NoSendsKept(s, s1);
    DeliverRace(s1, q.broker, At(s.at, Wire(p))[0].sc);
  }

  lemma RouteRace(s: State, p: PeerKey, a: RouteAct)
    requires PlaceInv(s) && s.tab.inflight <= s.tab.stages.Keys && CanRoute(s, p, a)
    ensures RaceKept(s, DoRoute(s, p, a))
  {
    match a
    case Scan => ScanRace(s, p);
    case ReceiveComplete(q) => ArriveRace(s, p, q);
    case _ => RouteNoSends(s, p, a); NoSendsKept(s, DoRoute(s, p, a));
  }

  lemma CompleteRace(s: State, w: SubKey, sc: StageComplete)
    requires s.tab.inflight <= s.tab.stages.Keys && CanEnv(s, WorkerComplete(w, sc))
    ensures RaceKept(s, DoEnv(s, WorkerComplete(w, sc)))
  {
    var s1 := s.(hist := s.hist.(said := s.hist.said + {sc}));
    forall x ensures AbandonTarget(s1, x) == AbandonTarget(s, x) { }
    NoSendsKept(s, s1);
    DeliverRace(s1, w.broker, sc);
  }

  lemma EnvRace(s: State, a: EnvAct)
    requires s.tab.inflight <= s.tab.stages.Keys && CanEnv(s, a)
    ensures RaceKept(s, DoEnv(s, a))
  {
    match a
    case WorkerComplete(w, sc) => CompleteRace(s, w, sc);
    case DeliverSend(d) => DeliverSendRace(s, d);
    case Wake(k) => WakeRace(s, k);
    case Readiness(_, _, _) => EnvNoSends(s, a); NoSendsKept(s, DoEnv(s, a));
    case Release(_) => EnvNoSends(s, a); NoSendsKept(s, DoEnv(s, a));
  }

  lemma StepRace(s: State, step: Step)
    requires PlaceInv(s) && s.tab.inflight <= s.tab.stages.Keys && Can(s, step)
    ensures RaceKept(s, Do(s, step))
  {
    match step
    case OnPull(w, a) => PullNoSends(s, w, a); NoSendsKept(s, DoPull(s, w, a));
    case OnSend(w, a) => SendNoSends(s, w, a); NoSendsKept(s, DoSend(s, w, a));
    case OnLeave(w, a) => LeaveNoSends(s, w, a); NoSendsKept(s, DoLeave(s, w, a));
    case OnAbandon(w, a) => AbandonRace(s, w, a);
    case OnFan(w, i, a) => FanNoSends(s, w, i, a); NoSendsKept(s, DoFan(s, w, i, a));
    case OnPlace(k, a) => PlaceNoSends(s, k, a); NoSendsKept(s, DoPlace(s, k, a));
    case OnPark(k, a) => ParkNoSends(s, k, a); NoSendsKept(s, DoPark(s, k, a));
    case OnForeign(k, a) => ForeignNoSends(s, k, a); NoSendsKept(s, DoForeign(s, k, a));
    case OnRoute(p, a) => RouteRace(s, p, a);
    case OnEnv(a) => EnvRace(s, a);
  }

  lemma StepOfRun(states: seq<State>, steps: seq<Step>, i: nat)
    requires Run(states, steps) && i < |steps|
    ensures RaceKept(states[i], states[i + 1])
  {
    RunInv(states, steps, i);
    assert Stepped(states[i], steps[i], states[i + 1]);
    StepRace(states[i], steps[i]);
  }

  lemma RunRace(states: seq<State>, steps: seq<Step>, i: nat)
    requires Run(states, steps) && i < |states|
    ensures RaceInv(states[i])
  {
    var n := 0;
    while n < i
      invariant n <= i && RaceInv(states[n])
    {
      StepOfRun(states, steps, n);
      n := n + 1;
    }
  }

  /** Once the channel is reserved for a Complete, it stays so for the rest of the run. */
  lemma ReservedForGood(states: seq<State>, steps: seq<Step>, i: nat, j: nat, k: StageKey, sc: StageComplete)
    requires Run(states, steps) && i <= j < |states| && Reserved(states[i], k, sc)
    ensures Reserved(states[j], k, sc)
  {
    var n := i;
    while n < j
      invariant i <= n <= j && Reserved(states[n], k, sc)
    {
      StepOfRun(states, steps, n);
      n := n + 1;
    }
  }

  // ---------------------------------------------------------------- a Complete that resolves its stage

  /** The step takes the Complete sc, from a worker or home from a peer, and it resolves k. */
  ghost predicate Completes(s: State, step: Step, k: StageKey, sc: StageComplete)
    requires Can(s, step)
  {
    && k in s.tab.inflight && k.token == sc.leaseToken
    && ((step.OnEnv? && step.env.WorkerComplete? && step.env.sc == sc && step.env.sub.broker == k.broker)
        || (step.OnRoute? && step.route.ReceiveComplete? && At(s.at, Wire(step.peer))[0].sc == sc && step.route.at.broker == k.broker))
  }

  /** What such a step does: the stage is resolved, its Complete pending, and the channel is as it was. */
  ghost predicate Completed(s: State, s': State, k: StageKey, sc: StageComplete) {
    && s'.mail == s.mail.(deliveries := s.mail.deliveries + multiset{Delivery(k, sc)})
    && s'.tab == Resolve(s.tab, k) && s'.loops == s.loops && s'.sent == s.sent && s'.peers == s.peers
  }

  lemma CompleteStep(s: State, step: Step, k: StageKey, sc: StageComplete)
    requires Can(s, step) && Completes(s, step, k, sc)
    ensures Completed(s, Do(s, step), k, sc)
  {
  }

  lemma AfterComplete(s: State, s': State, k: StageKey, sc: StageComplete)
    requires RaceInv(s) && s.tab.inflight <= s.tab.stages.Keys && k in s.tab.inflight && Completed(s, s', k, sc)
    ensures Contested(s', k) <==> Contested(s, k)
    ensures Delivery(k, sc) in s'.mail.deliveries && (!Contested(s, k) ==> Reserved(s', k, sc))
  {
    ResolveStays(s.tab, k);
    forall w ensures AbandonTarget(s', w) == AbandonTarget(s, w) { }
    assert forall d | d in s.mail.deliveries :: d.key != k;
  }

  // ---------------------------------------------------------------- exactly when it can lose

  lemma AppendPath(states: seq<State>, steps: seq<Step>, after: seq<State>, acts: seq<Step>)
    requires Run(states, steps) && Path(states[|steps|], after, acts)
    ensures Run(states + after[1..], steps + acts)
    ensures (states + after[1..])[|steps|] == states[|steps|] && (states + after[1..])[|steps| + |acts|] == after[|acts|]
  {
    var ss, ts := states + after[1..], steps + acts;
    forall i | 0 <= i < |ts| ensures Stepped(ss[i], ts[i], ss[i + 1]) {
      if i < |steps| { assert Stepped(states[i], steps[i], states[i + 1]); }
      else { assert Stepped(after[i - |steps|], acts[i - |steps|], after[i - |steps| + 1]); }
    }
  }

  lemma Prefix(states: seq<State>, steps: seq<Step>, i: nat)
    requires Run(states, steps) && i < |states|
    ensures Run(states[..i + 1], steps[..i])
  {
    forall n | 0 <= n < i ensures Stepped(states[..i + 1][n], steps[..i][n], states[..i + 1][n + 1]) {
      assert Stepped(states[n], steps[n], states[n + 1]);
    }
  }

  /** The Complete is still to be sent, and finds the channel taken. */
  ghost predicate Beaten(s: State, k: StageKey, sc: StageComplete) {
    Delivery(k, sc) in s.mail.deliveries && k in s.mail.results
  }

  ghost predicate CanBeBeaten(s: State, k: StageKey, sc: StageComplete) {
    exists after, acts :: Path(s, after, acts) && Beaten(after[|acts|], k, sc)
  }

  lemma OneStepPath(s: State, step: Step)
    requires Can(s, step)
    ensures Path(s, [s, Do(s, step)], [step])
  {
    assert Stepped(s, step, Do(s, step));
  }

  /** A contested channel can be filled at once, by the one who contests it. */
  lemma ContestedCanBeat(s: State, k: StageKey, sc: StageComplete) returns (after: seq<State>, acts: seq<Step>)
    requires Contested(s, k) && Delivery(k, sc) in s.mail.deliveries
    ensures Path(s, after, acts) && Beaten(after[|acts|], k, sc) && |acts| <= 1
    ensures after[|acts|].mail.waiters == s.mail.waiters
    ensures k in s.mail.results ==> after == [s]
    ensures k !in s.mail.results ==> BrokerMade(after[|acts|].mail.results[k], k)
  {
    if k in s.mail.results {
      after, acts := [s], [];
    } else {
      var step;
      if k in s.mail.wakes {
        step := OnEnv(Wake(k));
      } else {
        var w :| AbandonTarget(s, w) == Some(k);
        step := OnAbandon(w, AbandonSend);
      }
      OneStepPath(s, step);
      after, acts := [s, Do(s, step)], [step];
    }
  }

  /**
    At a Complete that resolves its stage, some continuation lets a made-up failure into the
    channel before it if and only if one is already there, or an abandon has looked the
    stage up and not sent yet, or a departure scan has collected it and not sent yet.
   */
  lemma BeatenExactlyWhen(states: seq<State>, steps: seq<Step>, i: nat, k: StageKey, sc: StageComplete)
    requires Run(states, steps) && i < |steps| && Can(states[i], steps[i]) && Completes(states[i], steps[i], k, sc)
    ensures CanBeBeaten(states[i + 1], k, sc) <==> Contested(states[i], k)
  {
    RunInv(states, steps, i);
    RunRace(states, steps, i);
    assert Stepped(states[i], steps[i], states[i + 1]);
    CompleteStep(states[i], steps[i], k, sc);
    AfterComplete(states[i], states[i + 1], k, sc);
    if Contested(states[i], k) {
      var after, acts := ContestedCanBeat(states[i + 1], k, sc);
    } else {
      forall after, acts | Path(states[i + 1], after, acts) ensures !Beaten(after[|acts|], k, sc) {
        NeverBeaten(states, steps, i + 1, k, sc, after, acts);
      }
    }
  }

  lemma NeverBeaten(states: seq<State>, steps: seq<Step>, i: nat, k: StageKey, sc: StageComplete, after: seq<State>, acts: seq<Step>)
    requires Run(states, steps) && i < |states| && Reserved(states[i], k, sc) && Path(states[i], after, acts)
    ensures Reserved(after[|acts|], k, sc) && !Beaten(after[|acts|], k, sc)
  {
    Prefix(states, steps, i);
    AppendPath(states[..i + 1], steps[..i], after, acts);
    ReservedForGood(states[..i + 1] + after[1..], steps[..i] + acts, i, i + |acts|, k, sc);
  }

  // ---------------------------------------------------------------- what the waiter receives

  /** The waiter has heard nothing but sc, or has stopped listening on its own. */
  predicate Listening(x: Waiter, sc: StageComplete) {
    || x.Queueing? || x.ParkedLocal? || x.Forwarder? || (x.ForwarderTook? && x.sc == sc)
    || ((x.Dropping? || x.Done?) && (x.outcome.Cancelled? || x.outcome.Relayed? || x.outcome == Returned(sc)))
  }

  ghost predicate Listens(s: State, k: StageKey, sc: StageComplete) {
    k in s.mail.waiters && Listening(s.mail.waiters[k], sc)
  }

  lemma PlaceListens(s: State, x: StageKey, a: PlaceAct, k: StageKey, sc: StageComplete)
    requires Fresh(s) && Listens(s, k, sc) && CanPlace(s, x, a)
    ensures Listens(DoPlace(s, x, a), k, sc)
  {
    if x == k { assert k.token in s.hist.used; }
  }

  lemma ParkListens(s: State, x: StageKey, a: ParkAct, k: StageKey, sc: StageComplete)
    requires Reserved(s, k, sc) && Listens(s, k, sc) && CanPark(s, x, a)
    ensures Listens(DoPark(s, x, a), k, sc)
  {
  }

  lemma ForeignListens(s: State, x: StageKey, a: ForeignAct, k: StageKey, sc: StageComplete)
    requires Reserved(s, k, sc) && Listens(s, k, sc) && CanForeign(s, x, a)
    ensures Listens(DoForeign(s, x, a), k, sc)
  {
  }

  lemma RouteListens(s: State, p: PeerKey, a: RouteAct, k: StageKey, sc: StageComplete)
    requires PlaceInv(s) && k in s.tab.stages && Listens(s, k, sc) && CanRoute(s, p, a)
    ensures Listens(DoRoute(s, p, a), k, sc)
  {
    match a
    case ReceiveTask(q) => ArrivesFresh(s, p, q);
    case Publish(_) =>
    case _ => OtherRouteAway(s, p, a);
  }

  lemma StepListens(s: State, step: Step, k: StageKey, sc: StageComplete)
    requires PlaceInv(s) && Reserved(s, k, sc) && Listens(s, k, sc) && Can(s, step)
    ensures Listens(Do(s, step), k, sc)
  {
    match step
    case OnPull(w, a) => PullBystander(s, w, a);
    case OnSend(w, a) => SendBystander(s, w, a);
    case OnLeave(w, a) => LeaveBystander(s, w, a);
    case OnAbandon(w, a) => AbandonBystander(s, w, a);
    case OnFan(w, i, a) => FanBystander(s, w, i, a);
    case OnPlace(x, a) => PlaceListens(s, x, a, k, sc);
    case OnPark(x, a) => ParkListens(s, x, a, k, sc);
    case OnForeign(x, a) => ForeignListens(s, x, a, k, sc);
    case OnRoute(p, a) => RouteListens(s, p, a, k, sc);
    case OnEnv(a) => EnvBystander(s, a);
  }

  lemma ListensNext(states: seq<State>, steps: seq<Step>, i: nat, k: StageKey, sc: StageComplete)
    requires Run(states, steps) && i < |steps| && Reserved(states[i], k, sc) && Listens(states[i], k, sc)
    ensures Reserved(states[i + 1], k, sc) && Listens(states[i + 1], k, sc)
  {
    StepOfRun(states, steps, i);
    RunInv(states, steps, i);
    assert Stepped(states[i], steps[i], states[i + 1]);
    StepListens(states[i], steps[i], k, sc);
  }

  /** With the channel reserved, a waiter that did not push its stage can only ever receive that Complete, or give up. */
  lemma OnlyThatComplete(states: seq<State>, steps: seq<Step>, i: nat, j: nat, k: StageKey, sc: StageComplete)
    requires Run(states, steps) && i <= j < |states| && Reserved(states[i], k, sc) && Listens(states[i], k, sc)
    ensures Listens(states[j], k, sc)
  {
    var n := i;
    while n < j
      invariant i <= n <= j && Reserved(states[n], k, sc) && Listens(states[n], k, sc)
    {
      ListensNext(states, steps, n, k, sc);
      n := n + 1;
    }
  }

  /** The waiter took a failure the broker made up. */
  predicate TookMadeUp(x: Waiter, k: StageKey) {
    || (x.ForwarderTook? && BrokerMade(x.sc, k))
    || ((x.Dropping? || x.Done?) && x.outcome.Returned? && BrokerMade(x.outcome.sc, k))
  }

  ghost predicate CanTakeMadeUp(s: State, k: StageKey) {
    exists after, acts :: Path(s, after, acts) && EndsMadeUp(after[|acts|], k)
  }

  ghost predicate EndsMadeUp(s: State, k: StageKey) {
    k in s.mail.waiters && TookMadeUp(s.mail.waiters[k], k)
  }

  lemma ExtendPath(s: State, after: seq<State>, acts: seq<Step>, step: Step)
    requires Path(s, after, acts) && Can(after[|acts|], step)
    ensures Path(s, after + [Do(after[|acts|], step)], acts + [step])
  {
    var after', acts' := after + [Do(after[|acts|], step)], acts + [step];
    forall i | 0 <= i < |acts'| ensures Stepped(after'[i], acts'[i], after'[i + 1]) {
      if i < |acts| { assert Stepped(after[i], acts[i], after[i + 1]); }
    }
  }

  lemma TakeStep(e: State, k: StageKey)
    requires k in e.mail.results && BrokerMade(e.mail.results[k], k) && k in e.mail.waiters
    requires e.mail.waiters[k].ParkedLocal? || e.mail.waiters[k].Forwarder?
    ensures var step := if e.mail.waiters[k].ParkedLocal? then OnPark(k, TakeResult) else OnForeign(k, ForwardTake);
            Can(e, step) && EndsMadeUp(Do(e, step), k)
  {
  }

  /** A waiter parked at home, or forwarding, takes what beat the Complete. */
  lemma ContestedCanTake(s: State, k: StageKey, sc: StageComplete)
    requires Contested(s, k) && Delivery(k, sc) in s.mail.deliveries && k in s.mail.waiters
    requires s.mail.waiters[k].ParkedLocal? || s.mail.waiters[k].Forwarder?
    requires k in s.mail.results ==> BrokerMade(s.mail.results[k], k)
    ensures CanTakeMadeUp(s, k)
  {
    var after, acts := ContestedCanBeat(s, k, sc);
    var e := after[|acts|];
    TakeStep(e, k);
    var step := if e.mail.waiters[k].ParkedLocal? then OnPark(k, TakeResult) else OnForeign(k, ForwardTake);
    ExtendPath(s, after, acts, step);
    var after', acts' := after + [Do(e, step)], acts + [step];
    assert Path(s, after', acts') && EndsMadeUp(after'[|acts'|], k);
  }

  lemma CancelBereaves(s: State, k: StageKey, p: PeerKey)
    requires SentAway(s, k, p) && s.mail.waiters[k] in {Pushed(p), ParkedRemote(p)}
    ensures Can(s, OnRoute(p, Cancel))
    ensures var s1 := DoRoute(s, p, Cancel); Do(s, OnRoute(p, Cancel)) == s1 && Bereft(s1, k, p) && s1.mail == s.mail
  {
  }

  /** A waiter that pushed its stage may always see the peer depart instead. */
  lemma PushedCanTake(s: State, k: StageKey, p: PeerKey)
    requires SentAway(s, k, p) && s.mail.waiters[k] in {Pushed(p), ParkedRemote(p)}
    ensures CanTakeMadeUp(s, k)
  {
    var s1 := DoRoute(s, p, Cancel);
    CancelBereaves(s, k, p);
    var after, acts := OwnPath(s1, k, p);
    PrependPath(s, OnRoute(p, Cancel), after, acts);
    assert EndsMadeUp(after[|acts|], k);
    var after', acts' := [s] + after, [OnRoute(p, Cancel)] + acts;
    assert Path(s, after', acts') && EndsMadeUp(after'[|acts'|], k);
  }

  lemma PushedComplete(s: State, s': State, k: StageKey, sc: StageComplete)
    requires Completed(s, s', k, sc) && WaiterHome(s, k) && WaiterOk(s, k) && k in s.mail.waiters
    requires s.mail.waiters[k].Pushed? || s.mail.waiters[k].ParkedRemote?
    ensures CanTakeMadeUp(s', k)
  {
    ResolveStays(s.tab, k);
    PushedCanTake(s', k, s.mail.waiters[k].peer);
  }

  lemma ContestedComplete(s: State, s': State, k: StageKey, sc: StageComplete)
    requires RaceInv(s) && s.tab.inflight <= s.tab.stages.Keys && k in s.tab.inflight && Completed(s, s', k, sc) && Contested(s, k)
    requires k in s.mail.waiters && (s.mail.waiters[k].ParkedLocal? || s.mail.waiters[k].Forwarder?)
    ensures CanTakeMadeUp(s', k)
  {
    AfterComplete(s, s', k, sc);
    ContestedCanTake(s', k, sc);
  }

  /**
    At a Complete that resolves a stage whose waiter is waiting for it, and that is not itself
    one of the failures a broker makes up: some continuation hands the waiter a made-up
    failure instead if and only if the channel is contested, or the stage was pushed to a
    peer, whose departure the waiter also listens for.
   */
  lemma MadeUpExactlyWhen(states: seq<State>, steps: seq<Step>, i: nat, k: StageKey, sc: StageComplete)
    requires Run(states, steps) && i < |steps| && Can(states[i], steps[i]) && Completes(states[i], steps[i], k, sc)
    requires !BrokerMade(sc, k) && k in states[i].mail.waiters
    requires var x := states[i].mail.waiters[k]; x.ParkedLocal? || x.Forwarder? || x.Pushed? || x.ParkedRemote?
    ensures CanTakeMadeUp(states[i + 1], k) <==>
            Contested(states[i], k) || states[i].mail.waiters[k].Pushed? || states[i].mail.waiters[k].ParkedRemote?
  {
    RunInv(states, steps, i);
    RunRace(states, steps, i);
    RunAway(states, steps, i);
    var s, s', x := states[i], states[i + 1], states[i].mail.waiters[k];
    assert Stepped(s, steps[i], s');
    CompleteStep(s, steps[i], k, sc);
    AfterComplete(s, s', k, sc);
    if x.Pushed? || x.ParkedRemote? {
      assert WaiterOk(s, k) && WaiterHome(s, k);
      PushedComplete(s, s', k, sc);
    } else if Contested(s, k) {
      ContestedComplete(s, s', k, sc);
    } else {
      forall after, acts | Path(s', after, acts) ensures !EndsMadeUp(after[|acts|], k) {
        NeverMadeUp(states, steps, i + 1, k, sc, after, acts);
      }
    }
  }

  lemma NeverMadeUp(states: seq<State>, steps: seq<Step>, i: nat, k: StageKey, sc: StageComplete, after: seq<State>, acts: seq<Step>)
    requires Run(states, steps) && i < |states| && Reserved(states[i], k, sc) && Listens(states[i], k, sc) && !BrokerMade(sc, k)
    requires Path(states[i], after, acts)
    ensures !EndsMadeUp(after[|acts|], k)
  {
    Prefix(states, steps, i);
    AppendPath(states[..i + 1], steps[..i], after, acts);
    OnlyThatComplete(states[..i + 1] + after[1..], steps[..i] + acts, i, i + |acts|, k, sc);
  }
}
