/**
  What holds in every state of every run of the broker protocol, over any number of
  brokers, streams, stages and peers, whatever the interleaving.
 */
module BrokerTheorems {
  import opened Wrappers
  import opened BrokerTypes
  import opened SlotTable
  import opened Custody
  import opened Protocol
  import opened PlaceInvariant
  import opened SlotInvariant
  import opened SlotSteps
  import opened WakeInvariant
  import opened Provenance
  import opened Handoff

  ghost predicate Inv(s: State) {
    PlaceInv(s) && SlotInv(s) && WakeInv(s) && MailInv(s) && HandoffInv(s)
  }

  lemma StartInv()
    ensures Inv(Start())
  {
    var s := Start();
    assert forall w :: GateSet(s.tab, w) == {} && CreditSet(s.tab, w) == {};
  }

  lemma InvKept(s: State, step: Step)
    requires Inv(s) && Can(s, step)
    ensures Inv(Do(s, step))
  {
    PlaceInvKept(s, step);
    SlotInvKept(s, step);
    WakeInvKept(s, step);
    MailInvKept(s, step);
    HandoffInvKept(s, step);
  }

  lemma {:induction false} RunInv(states: seq<State>, steps: seq<Step>, i: nat)
    requires Run(states, steps) && i < |states|
    ensures Inv(states[i])
  {
    if i == 0 {
      StartInv();
    } else {
      RunInv(states, steps, i - 1);
      assert Stepped(states[i - 1], steps[i - 1], states[i]);
      InvKept(states[i - 1], steps[i - 1]);
    }
  }

  // ---------------------------------------------------------------- the capacity gate

  /**
    Gate-slot conservation, at every phase of a stream, after a failed send and after its
    exit included. The tokens in its slots channel, plus one if an attribution was reversed,
    are the one the loop holds, one per in-flight stage gated on it, one per captured
    release, and those stranded, regated to another stream, or missed. A stream that still
    runs has none of the last kinds but stranded ones.
   */
  lemma GateConservation(states: seq<State>, steps: seq<Step>, i: nat, w: SubKey)
    requires Run(states, steps) && i < |states| && w in states[i].loops
    ensures w in states[i].tab.subs
    ensures var t, d := states[i].tab, states[i].tab.drift;
            && t.subs[w].slots + d.doubled[w]
               == (if Holding(states[i].loops[w]) then 1 else 0) + |GateSet(t, w)| + t.releases[w]
                  + d.stranded[w] + d.regated[w] + d.missed[w]
            && d.missed[w] <= d.doubled[w] <= 1
            && (!Gone(states[i].loops[w]) ==> d.doubled[w] == 0)
            && (Running(states[i].loops[w]) ==> d.regated[w] == 0)
            && t.subs[w].slots <= t.subs[w].maxInflight
  {
    RunInv(states, steps, i);
    assert Conserved(states[i].tab, states[i].loops, w);
  }

  /**
    A release that is executed takes the default arm of releaseSlot if and only if the
    stream's attribution was reversed and this is the only token still accounted to it: no
    gated stage, no other release, nothing stranded, regated or missed before. In
    particular it never does before the stream's send failed.
   */
  lemma ReleaseMissesExactlyWhen(states: seq<State>, steps: seq<Step>, i: nat, w: SubKey)
    requires Run(states, steps) && i < |states| && w in states[i].tab.releases
    ensures w in states[i].tab.subs && w in states[i].loops
    ensures var t, d := states[i].tab, states[i].tab.drift;
            t.subs[w].slots == 0 <==>
            d.doubled[w] == 1 && GateSet(t, w) == {} && t.releases[w] == 1 && d.stranded[w] == 0 && d.regated[w] == 0 && d.missed[w] == 0
    ensures !Gone(states[i].loops[w]) ==> states[i].tab.subs[w].slots > 0
  {
    RunInv(states, steps, i);
    var t := states[i].tab;
    assert Conserved(t, states[i].loops, w);
    assert |GateSet(t, w)| == 0 <==> GateSet(t, w) == {};
  }

  // The four ways in which the slots accounts of a stream w drift.

  /** A gate claim on a stage that has already left inflight. */
  ghost predicate Strands(s: State, step: Step, w: SubKey)
    requires Can(s, step)
  {
    step == OnSend(w, Claim) && HandKey(s, w) !in s.tab.inflight
  }

  /** An attribution reversed while its slot is still held. */
  ghost predicate Doubles(s: State, step: Step, w: SubKey)
    requires Can(s, step)
  {
    step == OnLeave(w, UnattributeTask) && HandKey(s, w) in s.tab.stages && s.tab.stages[HandKey(s, w)].slotHeld
  }

  /** A gate claim, by any stream, on an in-flight stage still gated on w. */
  ghost predicate Regates(s: State, step: Step, w: SubKey)
    requires Can(s, step)
  {
    step.OnSend? && step.send.Claim? && HandKey(s, step.sub) in s.tab.inflight && HandKey(s, step.sub) in s.tab.stages
    && s.tab.stages[HandKey(s, step.sub)].gateSub == Some(w)
  }

  /** A captured release executed on an empty channel. */
  ghost predicate Misses(s: State, step: Step, w: SubKey) {
    step == OnEnv(Release(w)) && w in s.tab.subs && s.tab.subs[w].slots == 0
  }

  function One(b: bool): nat {
    if b then 1 else 0
  }

  /** Each count of drift grows by exactly its own step, by one, and by nothing else. */
  lemma DriftExactlyWhen(states: seq<State>, steps: seq<Step>, i: nat, w: SubKey)
    requires Run(states, steps) && i < |steps|
    ensures Can(states[i], steps[i])
    ensures var d, d' := states[i].tab.drift, states[i + 1].tab.drift;
            && d'.stranded[w] == d.stranded[w] + One(Strands(states[i], steps[i], w))
            && d'.doubled[w] == d.doubled[w] + One(Doubles(states[i], steps[i], w))
            && d'.regated[w] == d.regated[w] + One(Regates(states[i], steps[i], w))
            && d'.missed[w] == d.missed[w] + One(Misses(states[i], steps[i], w))
  {
    RunInv(states, steps, i);
    assert Stepped(states[i], steps[i], states[i + 1]);
    StepDrift(states[i], steps[i], w);
  }

  ghost predicate Drifted(s: State, step: Step, d': Drift, w: SubKey)
    requires Can(s, step)
  {
    var d := s.tab.drift;
    && d'.stranded[w] == d.stranded[w] + One(Strands(s, step, w))
    && d'.doubled[w] == d.doubled[w] + One(Doubles(s, step, w))
    && d'.regated[w] == d.regated[w] + One(Regates(s, step, w))
    && d'.missed[w] == d.missed[w] + One(Misses(s, step, w))
  }

  lemma StepDrift(s: State, step: Step, w: SubKey)
    requires Inv(s) && Can(s, step)
    ensures Drifted(s, step, Do(s, step).tab.drift, w)
  {
    if Drifts(step) {
      match step
      case OnSend(x, _) => ClaimDrift(s, x, w);
      case OnLeave(x, a) => if a.UnattributeTask? { UnattributeDrift(s, x, w); } else { ReturnHeldDrift(s, x, w); }
      case OnEnv(a) => ReleaseDrift(s, a.sub, w);
    } else {
      Silence(s, step);
      NoDriftHere(s, step, w);
    }
  }

  lemma NoDriftHere(s: State, step: Step, w: SubKey)
    requires Can(s, step) && !Drifts(step)
    ensures Drifted(s, step, s.tab.drift, w)
  {
  }

  lemma ClaimDrift(s: State, x: SubKey, w: SubKey)
    requires Inv(s) && CanSend(s, x, Claim)
    ensures Drifted(s, OnSend(x, Claim), DoSend(s, x, Claim).tab.drift, w)
  {
    HandKnown(s, x);
  }

  lemma UnattributeDrift(s: State, x: SubKey, w: SubKey)
    requires Inv(s) && CanLeave(s, x, UnattributeTask)
    ensures Drifted(s, OnLeave(x, UnattributeTask), DoLeave(s, x, UnattributeTask).tab.drift, w)
  {
    HandKnown(s, x);
    assert StageLinked(s.tab, HandKey(s, x), s.tab.stages[HandKey(s, x)]);
  }

  /** The slot a leaving loop still holds is always there to be returned. */
  lemma ReturnHeldDrift(s: State, x: SubKey, w: SubKey)
    requires Inv(s) && CanLeave(s, x, ReturnHeld)
    ensures Drifted(s, OnLeave(x, ReturnHeld), DoLeave(s, x, ReturnHeld).tab.drift, w)
  {
    assert Conserved(s.tab, s.loops, x);
  }

  lemma ReleaseDrift(s: State, x: SubKey, w: SubKey)
    requires CanEnv(s, Release(x))
    ensures Drifted(s, OnEnv(Release(x)), DoEnv(s, Release(x)).tab.drift, w)
  {
    ReleaseTableDrift(s.tab, x, w);
  }

  lemma ReleaseTableDrift(t: Table, x: SubKey, w: SubKey)
    ensures ExecuteRelease(t, x).drift == t.drift.(missed := ExecuteRelease(t, x).drift.missed)
    ensures ExecuteRelease(t, x).drift.missed[w] == t.drift.missed[w] + One(x == w && x in t.subs && t.subs[x].slots == 0)
  {
  }

  /** A step that leaves the drift and the log alone. */
  ghost predicate Silent(s: State, s': State) {
    s'.tab.drift == s.tab.drift && s'.hist.log == s.hist.log
  }

  lemma LeaveSilent(s: State, w: SubKey, a: LeaveAct)
    requires CanLeave(s, w, a)
    ensures DoLeave(s, w, a).hist.log == s.hist.log
    ensures !a.UnattributeTask? && !a.ReturnHeld? ==> DoLeave(s, w, a).tab.drift == s.tab.drift
  {
  }

  lemma ForeignSilent(s: State, k: StageKey, a: ForeignAct)
    requires CanForeign(s, k, a)
    ensures Silent(s, DoForeign(s, k, a))
  {
  }

  lemma RouteSilent(s: State, p: PeerKey, a: RouteAct)
    requires CanRoute(s, p, a)
    ensures Silent(s, DoRoute(s, p, a))
  {
  }

  lemma EnvSilent(s: State, a: EnvAct)
    requires CanEnv(s, a)
    ensures DoEnv(s, a).hist.log == s.hist.log
    ensures !a.Release? ==> DoEnv(s, a).tab.drift == s.tab.drift
  {
  }

  lemma ParkSilent(s: State, k: StageKey, a: ParkAct)
    requires CanPark(s, k, a)
    ensures Silent(s, DoPark(s, k, a))
  {
  }

  lemma PullQuiet(s: State, w: SubKey, a: PullAct)
    requires CanPull(s, w, a)
    ensures DoPull(s, w, a).tab.drift == s.tab.drift
    ensures !a.CheckReady? ==> DoPull(s, w, a).hist.log == s.hist.log
  {
  }

  lemma SendQuiet(s: State, w: SubKey, a: SendAct)
    requires CanSend(s, w, a)
    ensures !a.Claim? ==> DoSend(s, w, a).tab.drift == s.tab.drift
    ensures !a.SendOk? ==> DoSend(s, w, a).hist.log == s.hist.log
  {
  }

  lemma PlaceSilent(s: State, k: StageKey, a: PlaceAct)
    requires CanPlace(s, k, a)
    ensures Silent(s, DoPlace(s, k, a))
  {
  }

  predicate Drifts(step: Step) {
    || (step.OnSend? && step.send.Claim?) || (step.OnLeave? && (step.leave.UnattributeTask? || step.leave.ReturnHeld?))
    || (step.OnEnv? && step.env.Release?)
  }

  lemma Silence(s: State, step: Step)
    requires Can(s, step)
    ensures !Drifts(step) ==> Do(s, step).tab.drift == s.tab.drift
    ensures !(step.OnSend? && step.send.SendOk?) && !(step.OnPull? && step.pull.CheckReady?) ==> Do(s, step).hist.log == s.hist.log
  {
    match step
    case OnPull(w, a) => PullQuiet(s, w, a);
    case OnSend(w, a) => SendQuiet(s, w, a);
    case OnLeave(w, a) => LeaveSilent(s, w, a);
    case OnAbandon(w, a) =>
    case OnFan(w, i, a) =>
    case OnPlace(k, a) => PlaceSilent(s, k, a);
    case OnPark(k, a) => ParkSilent(s, k, a);
    case OnForeign(k, a) => ForeignSilent(s, k, a);
    case OnRoute(p, a) => RouteSilent(s, p, a);
    case OnEnv(a) => EnvSilent(s, a);
  }

  // ---------------------------------------------------------------- the credit hint

  /**
    No over-dispatch. In every reachable state the credit counter of every stream, running
    or not, is the number of in-flight stages charged to it, and at most its ceiling.
   */
  lemma NoOverDispatch(states: seq<State>, steps: seq<Step>, i: nat, w: SubKey)
    requires Run(states, steps) && i < |states| && w in states[i].tab.subs
    ensures states[i].tab.subs[w].inflight == |CreditSet(states[i].tab, w)|
    ensures states[i].tab.subs[w].inflight <= states[i].tab.subs[w].maxInflight
  {
    RunInv(states, steps, i);
  }

  // ---------------------------------------------------------------- at most one handoff

  /** A lease token sits in at most one place of the whole mesh. */
  lemma OnePlaceEverywhere(states: seq<State>, steps: seq<Step>, i: nat, l1: Place, t1: StageTask, l2: Place, t2: StageTask)
    requires Run(states, steps) && i < |states|
    requires In(states[i].at, l1, TaskFrame(t1)) && In(states[i].at, l2, TaskFrame(t2)) && t1.leaseToken == t2.leaseToken
    ensures l1 == l2 && t1 == t2
  {
    RunInv(states, steps, i);
    OnePlace(states[i].at, l1, t1, l2, t2);
  }

  /** In any run, over all brokers, a lease token is handed to a worker at most once. */
  lemma AtMostOnceHandoff(states: seq<State>, steps: seq<Step>, i: nat, j1: nat, j2: nat)
    requires Run(states, steps) && i < |states|
    requires var log := states[i].hist.log;
             j1 < |log| && j2 < |log| && log[j1].HandedOver? && log[j2].HandedOver?
             && log[j1].task.leaseToken == log[j2].task.leaseToken
    ensures j1 == j2
  {
    RunInv(states, steps, i);
  }

  /** A reference on its way to a peer is in no buffer of the broker that forwarded it. */
  lemma ForwardedIsNotLocal(states: seq<State>, steps: seq<Step>, i: nat, p: PeerKey, t: StageTask, kv: KindVersion, t2: StageTask)
    requires Run(states, steps) && i < |states|
    requires In(states[i].at, OutQueue(p), TaskFrame(t)) || In(states[i].at, Wire(p), TaskFrame(t))
    requires t2.leaseToken == t.leaseToken
    ensures !In(states[i].at, Buffer(p.broker, kv), TaskFrame(t2))
  {
    if In(states[i].at, Buffer(p.broker, kv), TaskFrame(t2)) {
      if In(states[i].at, OutQueue(p), TaskFrame(t)) {
        OnePlaceEverywhere(states, steps, i, OutQueue(p), t, Buffer(p.broker, kv), t2);
      } else {
        OnePlaceEverywhere(states, steps, i, Wire(p), t, Buffer(p.broker, kv), t2);
      }
    }
  }

  // ---------------------------------------------------------------- strict version routing

  /** A buffer holds only its own pair; a stream is only ever sent pairs it subscribed to. */
  lemma StrictPlacement(states: seq<State>, steps: seq<Step>, i: nat, t: StageTask)
    requires Run(states, steps) && i < |states|
    ensures forall b, kv :: In(states[i].at, Buffer(b, kv), TaskFrame(t)) ==> TaskKindVer(t) == kv
    ensures forall w :: In(states[i].at, SentTo(w), TaskFrame(t)) ==> Serves(states[i], w, TaskKindVer(t))
    ensures forall w :: HandedOver(w, t) in states[i].hist.log ==> Serves(states[i], w, TaskKindVer(t))
  {
    RunInv(states, steps, i);
    var s := states[i];
    forall b, kv | In(s.at, Buffer(b, kv), TaskFrame(t)) ensures TaskKindVer(t) == kv {
      assert PlaceOk(s, Buffer(b, kv), t);
    }
    forall w | In(s.at, SentTo(w), TaskFrame(t)) ensures Serves(s, w, TaskKindVer(t)) {
      assert PlaceOk(s, SentTo(w), t);
    }
  }

  lemma LogGrowth(s: State, step: Step)
    requires Can(s, step)
    ensures Do(s, step).hist.log == s.hist.log
            || (step.OnPull? && step.pull.CheckReady?
                && Do(s, step).hist.log == s.hist.log + [ReadyChecked(step.sub, HeldTask(s, LoopHand(step.sub)),
                                                          ReadyFor(s, step.sub, TaskKindVer(HeldTask(s, LoopHand(step.sub)))))])
            || (step.OnSend? && step.send.SendOk?
                && Do(s, step).hist.log == s.hist.log + [HandedOver(step.sub, HeldTask(s, LoopHand(step.sub)))])
  {
    Silence(s, step);
  }

  /** The step that puts a passed check into the log is that check, made against a ready stream. */
  lemma CheckJustMade(s: State, step: Step, w: SubKey, t: StageTask)
    requires Can(s, step) && ReadyChecked(w, t, true) !in s.hist.log && ReadyChecked(w, t, true) in Do(s, step).hist.log
    ensures step == OnPull(w, CheckReady) && CanPull(s, w, CheckReady)
    ensures HeldTask(s, LoopHand(w)) == t && ReadyFor(s, w, TaskKindVer(t))
  {
    LogGrowth(s, step);
  }

  /** A passed check in the log was made earlier in the run, against a ready stream. */
  lemma {:induction false} CheckHappened(states: seq<State>, steps: seq<Step>, j: nat, w: SubKey, t: StageTask) returns (i: nat)
    requires Run(states, steps) && j < |states| && ReadyChecked(w, t, true) in states[j].hist.log
    ensures i < j && steps[i] == OnPull(w, CheckReady) && CanPull(states[i], w, CheckReady)
    ensures HeldTask(states[i], LoopHand(w)) == t && ReadyFor(states[i], w, TaskKindVer(t))
  {
    if j == 0 {
      assert false;
    } else if ReadyChecked(w, t, true) in states[j - 1].hist.log {
      i := CheckHappened(states, steps, j - 1, w, t);
    } else {
      i := j - 1;
      assert Stepped(states[i], steps[i], states[j]);
      CheckJustMade(states[i], steps[i], w, t);
    }
  }

  /**
    Strict version routing, end to end. Whenever a task is sent to a worker, locally or after
    being forwarded, an earlier step of the same run checked the same stream for the same
    task and found it subscribed to exactly that pair and ready for it.
   */
  lemma StrictRouting(states: seq<State>, steps: seq<Step>, j: nat, w: SubKey) returns (i: nat)
    requires Run(states, steps) && j < |steps| && steps[j] == OnSend(w, SendOk)
    ensures Can(states[j], steps[j])
    ensures i < j && steps[i] == OnPull(w, CheckReady) && CanPull(states[i], w, CheckReady)
    ensures HeldTask(states[i], LoopHand(w)) == HeldTask(states[j], LoopHand(w))
    ensures ReadyFor(states[i], w, TaskKindVer(HeldTask(states[j], LoopHand(w))))
  {
    RunInv(states, steps, j);
    assert Stepped(states[j], steps[j], states[j + 1]);
    var t := HeldTask(states[j], LoopHand(w));
    assert In(states[j].at, LoopHand(w), TaskFrame(t)) && CheckedOk(states[j], w);
    i := CheckHappened(states, steps, j, w, t);
  }

  // ---------------------------------------------------------------- no sleeping waiter

  /** A step of the waiter of k itself, towards dropping the stage. */
  ghost predicate CanResolve(s: State, k: StageKey) {
    CanPark(s, k, TakeResult) || CanPark(s, k, Drop) || CanForeign(s, k, ForwardTake) || CanForeign(s, k, ForwardHome)
  }

  /**
    After a stream has exited, every token it had sent is resolved, or its waiter has an
    enabled step that takes a waiting value or finishes dropping the stage; pruning of the
    sent slice during the run makes no difference.
   */
  lemma NoSleepingWaiter(states: seq<State>, steps: seq<Step>, i: nat, w: SubKey, t: StageTask)
    requires Run(states, steps) && i < |states| && LoopIs(states[i], w, Exited)
    requires In(states[i].at, SentTo(w), TaskFrame(t))
    ensures StageKey(w.broker, t.leaseToken) !in states[i].tab.inflight
            || CanResolve(states[i], StageKey(w.broker, t.leaseToken))
  {
    RunInv(states, steps, i);
    var s, k := states[i], StageKey(w.broker, t.leaseToken);
    assert PlaceOk(s, SentTo(w), t) && SentOk(s, w, t) && WaiterOk(s, k);
    assert SentSlice(s, w)[|SentSlice(s, w)|..] == [];
  }

  // ---------------------------------------------------------------- terminal provenance

  /** What run() makes of the value dispatchStage returns. */
  datatype Report = Clean(sc: StageComplete) | StageError(failedStage: int, message: string, terminal: bool) | ContextError

  function RunReport(o: Outcome): Report
    requires !o.Relayed?
  {
    match o
    case Cancelled => ContextError
    case Returned(sc) =>
      if sc.errorMessage != "" then StageError(sc.failedStage, sc.errorMessage, sc.terminal) else Clean(sc)
  }

  /**
    Terminal provenance. A stage that comes back terminal did so because some worker sent a
    Complete with that very token, message and the terminal flag; a clean result is, in
    full, a Complete some worker sent for that token. Everything else is transient.
   */
  lemma TerminalProvenance(states: seq<State>, steps: seq<Step>, i: nat, k: StageKey)
    requires Run(states, steps) && i < |states| && k in states[i].mail.waiters
    requires states[i].mail.waiters[k].Done? && !states[i].mail.waiters[k].outcome.Relayed?
    ensures var r := RunReport(states[i].mail.waiters[k].outcome);
            && (r.StageError? && r.terminal ==>
                  exists sc | sc in states[i].hist.said :: sc.leaseToken == k.token && sc.terminal && sc.errorMessage == r.message)
            && (r.Clean? ==> r.sc in states[i].hist.said && r.sc.leaseToken == k.token)
  {
    RunInv(states, steps, i);
    assert WaiterFair(states[i].hist.said, k, states[i].mail.waiters[k]);
  }
}
