/**
  What a peer's departure does to the stages pushed to it, seen from the stage, in every
  state of every run: its own waiter can always finish it, in at most three steps of its
  own, and nothing any other process does takes that away.
 */
module Departures {
  import opened Wrappers
  import opened BrokerTypes
  import opened SlotTable
  import opened Custody
  import opened Protocol
  import opened PlaceInvariant
  import opened WakeInvariant
  import opened Provenance
  import opened AwayInvariant
  import opened BrokerTheorems

  lemma AllPeersKnown(s: State)
    requires WakeInv(s)
    ensures forall k :: PeersKnown(s, k)
  {
    forall k ensures PeersKnown(s, k) { assert WaiterOk(s, k); }
  }

  lemma StepAway(s: State, step: Step)
    requires Inv(s) && AwayInv(s) && Can(s, step)
    ensures AwayInv(Do(s, step))
  {
    AllPeersKnown(s);
    AwayInvKept(s, step);
  }

  lemma AwayNext(states: seq<State>, steps: seq<Step>, j: nat)
    requires Run(states, steps) && j < |steps| && AwayInv(states[j])
    ensures AwayInv(states[j + 1])
  {
    RunInv(states, steps, j);
    assert Stepped(states[j], steps[j], states[j + 1]);
    StepAway(states[j], steps[j]);
  }

  lemma RunAway(states: seq<State>, steps: seq<Step>, i: nat)
    requires Run(states, steps) && i < |states|
    ensures AwayInv(states[i])
  {
    var n := 0;
    while n < i
      invariant n <= i && AwayInv(states[n])
    {
      AwayNext(states, steps, n);
      n := n + 1;
    }
  }

  // ---------------------------------------------------------------- from the stage to its waiter

  /** Something shows that the stage k was pushed to its broker's peer client p. */
  ghost predicate PushedTowards(s: State, k: StageKey, p: PeerKey) {
    || (p.broker == k.broker && exists t: StageTask :: t.leaseToken == k.token && OnRouteTo(s.at, p, t))
    || (k in s.mail.pushedTo && s.mail.pushedTo[k] == p)
  }

  /** Its frame is queued for p or on p's wire, or the push is recorded: then its waiter stands at p, or is dropping it. */
  lemma PushedWaiterKnows(states: seq<State>, steps: seq<Step>, i: nat, k: StageKey, p: PeerKey)
    requires Run(states, steps) && i < |states| && PushedTowards(states[i], k, p)
    ensures SentAway(states[i], k, p)
    ensures k in states[i].tab.inflight ==>
              states[i].mail.waiters[k] in {Pushed(p), ParkedRemote(p)} || states[i].mail.waiters[k].Dropping?
  {
    RunAway(states, steps, i);
    RunInv(states, steps, i);
    assert RecordOk(states[i], k) && WaiterOk(states[i], k);
  }

  /** A reference registered by another broker has a home whose waiter stands at a peer client of that broker, or is dropping it. */
  lemma CopyHasHome(states: seq<State>, steps: seq<Step>, i: nat, k: StageKey) returns (home: StageKey, p: PeerKey)
    requires Run(states, steps) && i < |states| && k in states[i].tab.stages && states[i].tab.stages[k].foreign
    ensures home.token == k.token && home.broker != k.broker && SentAway(states[i], home, p) && states[i].peers[p].member == k.broker
    ensures home in states[i].tab.inflight ==>
              states[i].mail.waiters[home] in {Pushed(p), ParkedRemote(p)} || states[i].mail.waiters[home].Dropping?
  {
    RunAway(states, steps, i);
    RunInv(states, steps, i);
    assert CopyOk(states[i], k);
    var b, q :| HomeOf(states[i], k, b, q);
    home, p := StageKey(b, k.token), q;
    assert WaiterOk(states[i], home);
  }

  // ---------------------------------------------------------------- nothing takes the way out away

  lemma PlaceWaitersStay(s: State, k: StageKey, a: PlaceAct)
    requires Fresh(s) && CanPlace(s, k, a)
    ensures WaitersStay(s, DoPlace(s, k, a))
  {
    if a.RegisterTask? { assert k !in s.mail.waiters; }
  }

  lemma ParkWaitersStay(s: State, k: StageKey, a: ParkAct)
    requires CanPark(s, k, a)
    ensures WaitersStay(s, DoPark(s, k, a))
  {
  }

  lemma ForeignWaitersStay(s: State, k: StageKey, a: ForeignAct)
    requires CanForeign(s, k, a)
    ensures WaitersStay(s, DoForeign(s, k, a))
  {
  }

  lemma RouteWaitersStay(s: State, p: PeerKey, a: RouteAct)
    requires AwayInv(s) && PlaceInv(s) && CanRoute(s, p, a)
    ensures WaitersStay(s, DoRoute(s, p, a))
  {
    if a.ReceiveTask? {
      ArrivesFresh(s, p, a.at);
      assert WaiterHome(s, StageKey(a.at.broker, HeldTask(s, Wire(p)).leaseToken));
    } else if !a.Publish? {
      OtherRouteAway(s, p, a);
    }
  }

  lemma StepWaitersStay(s: State, step: Step)
    requires AwayInv(s) && PlaceInv(s) && Can(s, step)
    ensures WaitersStay(s, Do(s, step))
  {
    match step
    case OnPull(w, a) => PullBystander(s, w, a);
    case OnSend(w, a) => SendBystander(s, w, a);
    case OnLeave(w, a) => LeaveBystander(s, w, a);
    case OnAbandon(w, a) => AbandonBystander(s, w, a);
    case OnFan(w, i, a) => FanBystander(s, w, i, a);
    case OnPlace(k, a) => PlaceWaitersStay(s, k, a);
    case OnPark(k, a) => ParkWaitersStay(s, k, a);
    case OnForeign(k, a) => ForeignWaitersStay(s, k, a);
    case OnRoute(p, a) => RouteWaitersStay(s, p, a);
    case OnEnv(a) => EnvBystander(s, a);
  }

  ghost predicate CancelledStay(s: State, s': State) {
    forall p | p in s.peers && s.peers[p].cancelled :: p in s'.peers && s'.peers[p].cancelled
  }

  lemma RouteCancelled(s: State, p: PeerKey, a: RouteAct)
    requires CanRoute(s, p, a)
    ensures CancelledStay(s, DoRoute(s, p, a))
  {
  }

  ghost predicate SamePeers(s: State, s': State) {
    s'.peers == s.peers
  }

  lemma PullPeers(s: State, w: SubKey, a: PullAct)
    requires CanPull(s, w, a)
    ensures SamePeers(s, DoPull(s, w, a))
  {
  }

  lemma SendPeers(s: State, w: SubKey, a: SendAct)
    requires CanSend(s, w, a)
    ensures SamePeers(s, DoSend(s, w, a))
  {
  }

  lemma LeavePeers(s: State, w: SubKey, a: LeaveAct)
    requires CanLeave(s, w, a)
    ensures SamePeers(s, DoLeave(s, w, a))
  {
  }

  lemma AbandonPeers(s: State, w: SubKey, a: AbandonAct)
    requires CanAbandon(s, w, a)
    ensures SamePeers(s, DoAbandon(s, w, a))
  {
  }

  lemma FanPeers(s: State, w: SubKey, i: nat, a: FanAct)
    requires CanFan(s, w, i, a)
    ensures SamePeers(s, DoFan(s, w, i, a))
  {
  }

  lemma PlacePeers(s: State, k: StageKey, a: PlaceAct)
    requires CanPlace(s, k, a)
    ensures SamePeers(s, DoPlace(s, k, a))
  {
  }

  lemma ParkPeers(s: State, k: StageKey, a: ParkAct)
    requires CanPark(s, k, a)
    ensures SamePeers(s, DoPark(s, k, a))
  {
  }

  lemma ForeignPeers(s: State, k: StageKey, a: ForeignAct)
    requires CanForeign(s, k, a)
    ensures SamePeers(s, DoForeign(s, k, a))
  {
  }

  lemma EnvPeers(s: State, a: EnvAct)
    requires CanEnv(s, a)
    ensures SamePeers(s, DoEnv(s, a))
  {
  }

  lemma StepCancelled(s: State, step: Step)
    requires Can(s, step)
    ensures CancelledStay(s, Do(s, step))
  {
    match step
    case OnPull(w, a) => PullPeers(s, w, a);
    case OnSend(w, a) => SendPeers(s, w, a);
    case OnLeave(w, a) => LeavePeers(s, w, a);
    case OnAbandon(w, a) => AbandonPeers(s, w, a);
    case OnFan(w, i, a) => FanPeers(s, w, i, a);
    case OnPlace(k, a) => PlacePeers(s, k, a);
    case OnPark(k, a) => ParkPeers(s, k, a);
    case OnForeign(k, a) => ForeignPeers(s, k, a);
    case OnRoute(p, a) => RouteCancelled(s, p, a);
    case OnEnv(a) => EnvPeers(s, a);
  }

  /** How many steps of its own a waiter that pushed its stage is from the end. */
  function Rank(x: Waiter): nat {
    match x
    case Pushed(_) => 3
    case ParkedRemote(_) => 2
    case Dropping(_) => 1
    case _ => 0
  }

  /** A stage pushed to a departed peer: its waiter's way out is open. */
  ghost predicate Bereft(s: State, k: StageKey, p: PeerKey) {
    SentAway(s, k, p) && s.peers[p].cancelled
  }

  lemma BereftStays(s: State, s': State, k: StageKey, p: PeerKey)
    requires Bereft(s, k, p) && WaitersStay(s, s') && Grows(s, s') && CancelledStay(s, s')
    ensures Bereft(s', k, p) && Rank(s'.mail.waiters[k]) <= Rank(s.mail.waiters[k])
  {
    AwayStays(s, s', k, p);
  }

  lemma BereftKept(s: State, step: Step, k: StageKey, p: PeerKey)
    requires AwayInv(s) && PlaceInv(s) && Can(s, step) && Bereft(s, k, p)
    ensures Bereft(Do(s, step), k, p) && Rank(Do(s, step).mail.waiters[k]) <= Rank(s.mail.waiters[k])
  {
    PlaceInvKept(s, step);
    StepWaitersStay(s, step);
    StepCancelled(s, step);
    BereftStays(s, Do(s, step), k, p);
  }

  lemma BereftNext(states: seq<State>, steps: seq<Step>, j: nat, k: StageKey, p: PeerKey)
    requires Run(states, steps) && j < |steps| && Bereft(states[j], k, p)
    ensures Bereft(states[j + 1], k, p) && Rank(states[j + 1].mail.waiters[k]) <= Rank(states[j].mail.waiters[k])
  {
    RunInv(states, steps, j);
    RunAway(states, steps, j);
    assert Stepped(states[j], steps[j], states[j + 1]);
    BereftKept(states[j], steps[j], k, p);
  }

  /** Once a pushed stage's peer is cancelled it stays so for the rest of the run, and no step of anyone sets the waiter back. */
  lemma BereftForGood(states: seq<State>, steps: seq<Step>, i: nat, j: nat, k: StageKey, p: PeerKey)
    requires Run(states, steps) && i <= j < |states| && Bereft(states[i], k, p)
    ensures Bereft(states[j], k, p) && Rank(states[j].mail.waiters[k]) <= Rank(states[i].mail.waiters[k])
  {
    var n := i;
    while n < j
      invariant i <= n <= j && Bereft(states[n], k, p) && Rank(states[n].mail.waiters[k]) <= Rank(states[i].mail.waiters[k])
    {
      BereftNext(states, steps, n, k, p);
      n := n + 1;
    }
  }

  // ---------------------------------------------------------------- the way out

  /** The waiter's own next step. */
  ghost function OwnStep(s: State, k: StageKey): Step
    requires k in s.mail.waiters
  {
    match s.mail.waiters[k]
    case Pushed(_) => OnPlace(k, RecordPush)
    case ParkedRemote(_) => OnPark(k, PeerGoneArm)
    case _ => OnPark(k, Drop)
  }

  /** A path of enabled steps from a state. */
  ghost predicate Path(s: State, states: seq<State>, steps: seq<Step>) {
    |states| == |steps| + 1 && states[0] == s && (forall i | 0 <= i < |steps| :: Stepped(states[i], steps[i], states[i + 1]))
  }

  /** What the waiter's own next step brings: one rank less, and nothing forgotten. */
  ghost predicate Nearer(s: State, s': State, k: StageKey, p: PeerKey)
    requires k in s.mail.waiters
  {
    && Bereft(s', k, p) && Rank(s'.mail.waiters[k]) == Rank(s.mail.waiters[k]) - 1 && s'.hist.said == s.hist.said
    && (s.mail.waiters[k].ParkedRemote? ==> s'.mail.waiters[k] == Dropping(Returned(PeerDeparted())))
    && (s.mail.waiters[k].Dropping? ==> s'.mail.waiters[k] == Done(s.mail.waiters[k].outcome) && k !in s'.tab.inflight)
  }

  lemma OwnStepEnabled(s: State, k: StageKey, p: PeerKey)
    requires Bereft(s, k, p) && !s.mail.waiters[k].Done?
    ensures Can(s, OwnStep(s, k)) && Nearer(s, Do(s, OwnStep(s, k)), k, p)
  {
    match s.mail.waiters[k]
    case Pushed(_) => RecordStep(s, k, p);
    case ParkedRemote(_) => DepartStep(s, k, p);
    case _ => DropStep(s, k, p);
  }

  lemma RecordStep(s: State, k: StageKey, p: PeerKey)
    requires Bereft(s, k, p) && s.mail.waiters[k].Pushed?
    ensures CanPlace(s, k, RecordPush) && Nearer(s, DoPlace(s, k, RecordPush), k, p)
  {
  }

  lemma DepartStep(s: State, k: StageKey, p: PeerKey)
    requires Bereft(s, k, p) && s.mail.waiters[k].ParkedRemote?
    ensures CanPark(s, k, PeerGoneArm) && Nearer(s, DoPark(s, k, PeerGoneArm), k, p)
  {
  }

  lemma DropStep(s: State, k: StageKey, p: PeerKey)
    requires Bereft(s, k, p) && s.mail.waiters[k].Dropping?
    ensures CanPark(s, k, Drop) && Nearer(s, DoPark(s, k, Drop), k, p)
  {
  }

  /** The steps of a path are all the waiter's own. */
  ghost predicate Own(states: seq<State>, steps: seq<Step>, k: StageKey) {
    |states| == |steps| + 1 && forall n | 0 <= n < |steps| :: k in states[n].mail.waiters && steps[n] == OwnStep(states[n], k)
  }

  lemma PrependPath(s: State, step: Step, after: seq<State>, acts: seq<Step>)
    requires Can(s, step) && Path(Do(s, step), after, acts)
    ensures Path(s, [s] + after, [step] + acts) && ([s] + after)[|acts| + 1] == after[|acts|]
  {
    var after', acts' := [s] + after, [step] + acts;
    forall i | 0 <= i < |acts'| ensures Stepped(after'[i], acts'[i], after'[i + 1]) {
      if i > 0 { assert Stepped(after[i - 1], acts[i - 1], after[i]); }
    }
  }

  /**
    Run by itself the waiter needs one step per rank, each enabled in turn, and ends with
    the stage out of flight. What it reports was decided before, or is the transient
    peer-departed failure.
   */
  lemma {:induction false} OwnPath(s: State, k: StageKey, p: PeerKey) returns (states: seq<State>, steps: seq<Step>)
    requires Bereft(s, k, p)
    requires s.mail.waiters[k].Done? ==> k !in s.tab.inflight
    ensures Path(s, states, steps) && |steps| == Rank(s.mail.waiters[k])
    ensures Own(states, steps, k)
    ensures var e := states[|steps|];
            && k in e.mail.waiters && e.mail.waiters[k].Done? && k !in e.tab.inflight
            && e.mail.waiters[k].outcome == (if s.mail.waiters[k].Dropping? || s.mail.waiters[k].Done?
                                             then s.mail.waiters[k].outcome else Returned(PeerDeparted()))
    decreases Rank(s.mail.waiters[k])
  {
    if s.mail.waiters[k].Done? {
      states, steps := [s], [];
    } else {
      OwnStepEnabled(s, k, p);
      var step := OwnStep(s, k);
      var states', steps' := OwnPath(Do(s, step), k, p);
      PrependPath(s, step, states', steps');
      states, steps := [s] + states', [step] + steps';
    }
  }

  /** The waiter of k, by at most three steps of its own, ends with k out of flight and a fair outcome, or its own deadline. */
  ghost predicate Finishes(s: State, k: StageKey, after: seq<State>, own: seq<Step>) {
    && Path(s, after, own) && |own| <= 3
    && Own(after, own, k)
    && k !in after[|own|].tab.inflight && k in after[|own|].mail.waiters && after[|own|].mail.waiters[k].Done?
    && var x := after[|own|].mail.waiters[k].outcome;
       x.Cancelled? || (x.Returned? && Fair(s.hist.said, x.sc, k.token))
  }

  lemma AwayFinishes(states: seq<State>, steps: seq<Step>, i: nat, k: StageKey, p: PeerKey) returns (after: seq<State>, own: seq<Step>)
    requires Run(states, steps) && i < |states| && SentAway(states[i], k, p) && states[i].peers[p].cancelled
    ensures Finishes(states[i], k, after, own)
  {
    RunInv(states, steps, i);
    RunAway(states, steps, i);
    var s := states[i];
    assert WaiterHome(s, k) && WaiterOk(s, k) && WaiterFair(s.hist.said, k, s.mail.waiters[k]);
    after, own := OwnPath(s, k, p);
  }

  /**
    No sleeping waiter behind a departed peer. In every state of every run, a stage that was
    pushed to a peer since cancelled, in flight or not, recorded or not, can be finished by
    its own waiter in at most three steps, whatever else is going on. It ends out of flight,
    with a genuine Complete, a transient failure, or its own deadline.
   */
  lemma DepartedPeerWakes(states: seq<State>, steps: seq<Step>, i: nat, k: StageKey, p: PeerKey) returns (after: seq<State>, own: seq<Step>)
    requires Run(states, steps) && i < |states| && PushedTowards(states[i], k, p)
    requires p in states[i].peers ==> states[i].peers[p].cancelled
    ensures Finishes(states[i], k, after, own)
  {
    PushedWaiterKnows(states, steps, i, k, p);
    after, own := AwayFinishes(states, steps, i, k, p);
  }

  /** The same for a stage that a peer has already taken over, once the client it went through is cancelled. */
  lemma DepartedCopyWakes(states: seq<State>, steps: seq<Step>, i: nat, k: StageKey)
    returns (home: StageKey, p: PeerKey, after: seq<State>, own: seq<Step>)
    requires Run(states, steps) && i < |states| && k in states[i].tab.stages && states[i].tab.stages[k].foreign
    ensures home.token == k.token && home.broker != k.broker && p in states[i].peers && states[i].peers[p].member == k.broker
    ensures states[i].peers[p].cancelled ==> Finishes(states[i], home, after, own)
  {
    home, p := CopyHasHome(states, steps, i, k);
    if states[i].peers[p].cancelled {
      after, own := AwayFinishes(states, steps, i, home, p);
    } else {
      after, own := [], [];
    }
  }

  // ---------------------------------------------------------------- what the departure scan does

  /**
    The scan collects a stage that is in flight and away to its peer if and only if the
    waiter has already parked: between the push and the record it is missed.
   */
  lemma ScanMissesExactlyWhen(states: seq<State>, steps: seq<Step>, i: nat, k: StageKey, p: PeerKey)
    requires Run(states, steps) && i < |steps| && steps[i] == OnRoute(p, Scan)
    requires SentAway(states[i], k, p) && k in states[i].tab.inflight && k !in states[i].mail.wakes
    requires !states[i].mail.waiters[k].Dropping?
    ensures k in states[i + 1].mail.wakes <==> states[i].mail.waiters[k] == ParkedRemote(p)
    ensures k !in states[i + 1].mail.wakes <==> states[i].mail.waiters[k] == Pushed(p)
  {
    RunAway(states, steps, i);
    RunInv(states, steps, i);
    assert Stepped(states[i], steps[i], states[i + 1]);
    assert RecordOk(states[i], k) && WaiterOk(states[i], k);
  }

  ghost predicate Covered(s: State, k: StageKey) {
    k in s.mail.wakes || Woken(s, k)
  }

  lemma StepNeverSleeps(s: State, step: Step)
    requires PlaceInv(s) && Can(s, step)
    ensures NeverSleeps(s, Do(s, step))
  {
    match step
    case OnPull(w, a) => PullNeverSleeps(s, w, a);
    case OnSend(w, a) => SendNeverSleeps(s, w, a);
    case OnLeave(w, a) => LeaveNeverSleeps(s, w, a);
    case OnAbandon(w, a) => AbandonNeverSleeps(s, w, a);
    case OnFan(w, i, a) => FanNeverSleeps(s, w, i, a);
    case OnPlace(k, a) => PlaceNeverSleeps(s, k, a);
    case OnPark(k, a) => ParkNeverSleeps(s, k, a);
    case OnForeign(k, a) => ForeignNeverSleeps(s, k, a);
    case OnRoute(p, a) => RouteNeverSleeps(s, p, a);
    case OnEnv(a) => EnvNeverSleeps(s, a);
  }

  /** A collected stage stays collected until its value is sent. */
  ghost predicate WakesStay(s: State, s': State) {
    forall k | k in s.mail.wakes :: k in s'.mail.wakes || k in s'.mail.results
  }

  lemma StreamWakes(s: State, step: Step)
    requires Can(s, step) && (step.OnPull? || step.OnSend? || step.OnLeave? || step.OnAbandon? || step.OnFan?)
    ensures WakesStay(s, Do(s, step))
  {
    match step
    case OnPull(_, _) =>
    case OnSend(_, _) =>
    case OnLeave(_, _) =>
    case OnAbandon(_, _) =>
    case OnFan(_, _, _) =>
  }

  lemma EnvWakes(s: State, a: EnvAct)
    requires CanEnv(s, a)
    ensures WakesStay(s, DoEnv(s, a))
  {
    match a
    case WorkerComplete(_, _) =>
    case Readiness(_, _, _) =>
    case Release(_) =>
    case DeliverSend(_) =>
    case Wake(_) =>
  }

  lemma PlaceWakes(s: State, k: StageKey, a: PlaceAct)
    requires CanPlace(s, k, a)
    ensures DoPlace(s, k, a).mail.wakes == s.mail.wakes
  {
  }

  lemma ParkWakes(s: State, k: StageKey, a: ParkAct)
    requires CanPark(s, k, a)
    ensures DoPark(s, k, a).mail.wakes == s.mail.wakes
  {
  }

  lemma ForeignWakes(s: State, k: StageKey, a: ForeignAct)
    requires CanForeign(s, k, a)
    ensures DoForeign(s, k, a).mail.wakes == s.mail.wakes
  {
  }

  lemma RouteWakes(s: State, p: PeerKey, a: RouteAct)
    requires CanRoute(s, p, a)
    ensures s.mail.wakes <= DoRoute(s, p, a).mail.wakes
  {
  }

  lemma StepWakes(s: State, step: Step)
    requires Can(s, step)
    ensures WakesStay(s, Do(s, step))
  {
    match step
    case OnEnv(a) => EnvWakes(s, a);
    case OnPlace(k, a) => PlaceWakes(s, k, a);
    case OnPark(k, a) => ParkWakes(s, k, a);
    case OnForeign(k, a) => ForeignWakes(s, k, a);
    case OnRoute(p, a) => RouteWakes(s, p, a);
    case _ => StreamWakes(s, step);
  }

  lemma CoveredStays(s: State, s': State, k: StageKey)
    requires k in s.tab.stages && Covered(s, k) && NeverSleeps(s, s') && WakesStay(s, s')
    ensures Covered(s', k)
  {
    assert StaysAwake(s, s', k);
  }

  lemma CoveredKept(s: State, step: Step, k: StageKey)
    requires PlaceInv(s) && Can(s, step) && k in s.tab.stages && Covered(s, k)
    ensures k in Do(s, step).tab.stages && Covered(Do(s, step), k)
  {
    PlaceInvKept(s, step);
    StepNeverSleeps(s, step);
    StepWakes(s, step);
    CoveredStays(s, Do(s, step), k);
  }

  lemma CoveredNext(states: seq<State>, steps: seq<Step>, j: nat, k: StageKey)
    requires Run(states, steps) && j < |steps| && k in states[j].tab.stages && Covered(states[j], k)
    ensures k in states[j + 1].tab.stages && Covered(states[j + 1], k)
  {
    RunInv(states, steps, j);
    assert Stepped(states[j], steps[j], states[j + 1]);
    CoveredKept(states[j], steps[j], k);
  }

  lemma CoveredForGood(states: seq<State>, steps: seq<Step>, i: nat, j: nat, k: StageKey)
    requires Run(states, steps) && i <= j < |states| && k in states[i].tab.stages && Covered(states[i], k)
    ensures k in states[j].tab.stages && Covered(states[j], k)
  {
    var n := i;
    while n < j
      invariant i <= n <= j && k in states[n].tab.stages && Covered(states[n], k)
    {
      CoveredNext(states, steps, n, k);
      n := n + 1;
    }
  }

  /** A stage the scan found recorded is, from then on, resolved, about to be woken, woken, or past waiting. */
  lemma ScanWakesForGood(states: seq<State>, steps: seq<Step>, i: nat, j: nat, k: StageKey, p: PeerKey)
    requires Run(states, steps) && i < |steps| && steps[i] == OnRoute(p, Scan) && i < j < |states|
    requires k in states[i].tab.inflight && k in states[i].mail.pushedTo && states[i].mail.pushedTo[k] == p
    ensures Covered(states[j], k)
  {
    RunAway(states, steps, i);
    assert RecordOk(states[i], k);
    assert Stepped(states[i], steps[i], states[i + 1]);
    CoveredForGood(states, steps, i + 1, j, k);
  }
}
