/**
  Gate-slot conservation and exact credit, in every reachable state and at every phase of a
  stream, its exit included: the tokens in its slots channel, with the doubled one, are the
  one its loop holds, those owned by in-flight stages, those captured for release, and those
  stranded, regated or missed; and its credit counter is the number of in-flight stages
  charged to it, never above its ceiling.
 */
module SlotInvariant {
  import opened Wrappers
  import opened BrokerTypes
  import opened SlotTable
  import opened Custody
  import opened Protocol
  import opened PlaceInvariant

  /** The main loop has not left: it can still acquire slots and take tasks. */
  predicate Running(l: Loop) {
    l.NeedSlot? || l.HaveSlot? || l.Taken? || l.Cleared? || l.Bounced? || l.BouncingBack?
    || l.Attributed? || l.Claimed? || l.Compacting?
  }

  /** haveSlot: the loop itself owns one token of the slots channel. */
  predicate Holding(l: Loop) {
    l.HaveSlot? || l.Taken? || l.Cleared? || l.Bounced? || l.BouncingBack? || l.Attributed? || (l.Exiting? && l.held)
  }

  /** The stream is on its way out without holding a slot, possibly after a failed send. */
  predicate Gone(l: Loop) {
    l.FailBounced? || l.FailingBack? || (l.Exiting? && !l.held) || l.Abandoning? || l.AbandonSending? || l.Removing? || l.Exited?
  }

  // ---------------------------------------------------------------- the balance of a stream

  /** Tokens not in the loop's hands: owned by in-flight stages, captured for release, or lost track of. */
  ghost function Balance(t: Table, w: SubKey): nat {
    |GateSet(t, w)| + t.releases[w] + t.drift.stranded[w] + t.drift.regated[w] + t.drift.missed[w]
  }

  lemma RegisterBalance(t: Table, k: StageKey, task: StageTask, foreign: bool, w: SubKey)
    requires k !in t.stages
    ensures Balance(Register(t, k, task, foreign), w) == Balance(t, w)
  {
    RegisterSets(t, k, task, foreign, w);
  }

  /** Resolving moves a stage's token from owned to captured: nothing is created or lost. */
  lemma ResolveBalance(t: Table, k: StageKey, w: SubKey)
    ensures Balance(Resolve(t, k), w) == Balance(t, w)
  {
    if k in t.inflight && k in t.stages { ResolveSets(t, k, w); }
  }

  lemma AttributeBalance(t: Table, k: StageKey, w: SubKey, x: SubKey)
    ensures Balance(Attribute(t, k, w), x) == Balance(t, x)
  {
    assert GateSet(Attribute(t, k, w), x) == GateSet(t, x);
  }

  /** Claiming turns the token the loop held into one owned by the stage, or a stranded one; an earlier owner's is regated. */
  lemma ClaimBalance(t: Table, k: StageKey, w: SubKey, x: SubKey)
    requires k in t.stages
    ensures Balance(ClaimGate(t, k, w), x) == Balance(t, x) + if x == w then 1 else 0
  {
    ClaimSets(t, k, w, x);
  }

  /** Reversing an attribution captures a release and leaves the gate: the stream's tokens are counted once too often. */
  lemma UnattributeBalance(t: Table, k: StageKey, x: SubKey)
    requires WellLinked(t)
    ensures Balance(Unattribute(t, k), x) - Unattribute(t, k).drift.doubled[x] == Balance(t, x) - t.drift.doubled[x]
  {
    if k in t.stages && t.stages[k].slotHeld { UnattributeSets(t, k, x); }
  }

  lemma ForgetBalance(t: Table, k: StageKey, x: SubKey)
    requires k !in GateSet(t, x)
    ensures Balance(Forget(t, k), x) == Balance(t, x)
  {
    assert GateSet(Forget(t, k), x) == GateSet(t, x);
  }

  // ---------------------------------------------------------------- the invariant

  /**
    The slots channel of a stream at any phase. Up to one reversed attribution, its tokens
    are the loop's own, those of in-flight stages, the captured ones and those lost track of.
   */
  ghost predicate Conserved(t: Table, loops: map<SubKey, Loop>, w: SubKey) {
    w in t.subs && w in loops ==>
      && t.subs[w].slots + t.drift.doubled[w] == (if Holding(loops[w]) then 1 else 0) + Balance(t, w)
      && t.drift.missed[w] <= t.drift.doubled[w] <= (if Gone(loops[w]) then 1 else 0)
      && (Running(loops[w]) ==> t.drift.regated[w] == 0)
  }

  ghost predicate Bounded(t: Table) {
    && (forall w | w in t.subs :: t.subs[w].slots <= t.subs[w].maxInflight && t.subs[w].inflight <= t.subs[w].maxInflight)
    && (forall w | w in t.releases :: w in t.subs)
    && (forall w | w !in t.subs :: DriftFree(t.drift, w))
  }

  ghost predicate DriftFree(d: Drift, w: SubKey) {
    d.stranded[w] == 0 && d.doubled[w] == 0 && d.regated[w] == 0 && d.missed[w] == 0
  }

  /** No running stream owns the stage's gate token. */
  ghost predicate Stale(loops: map<SubKey, Loop>, g: Option<SubKey>) {
    g.Some? ==> g.value in loops && !Running(loops[g.value])
  }

  ghost predicate Idle(s: State, k: StageKey) {
    k in s.tab.stages ==> !s.tab.stages[k].slotHeld && Stale(s.loops, s.tab.stages[k].gateSub)
  }

  ghost predicate InHand(s: State, w: SubKey, k: StageKey) {
    k in s.tab.stages && w in s.loops ==>
      if s.loops[w].Attributed? then
        (s.tab.stages[k].slotHeld ==> s.tab.stages[k].sentBy == Some(w)) && Stale(s.loops, s.tab.stages[k].gateSub)
      else if s.loops[w].Claimed? || s.loops[w].SendFailed? then
        && (s.tab.stages[k].slotHeld ==> s.tab.stages[k].sentBy == Some(w))
        && (s.tab.stages[k].gateSub == Some(w) || Stale(s.loops, s.tab.stages[k].gateSub))
      else Idle(s, k)
  }

  /** The stage record behind a task at a place of a broker; none once sent or on a route. */
  function KeyOf(l: Place, t: StageTask): Option<StageKey> {
    match l
    case Dispatching(b) => Some(StageKey(b, t.leaseToken))
    case Buffer(b, _) => Some(StageKey(b, t.leaseToken))
    case FanHand(w, _) => Some(StageKey(w.broker, t.leaseToken))
    case FanBack(w, _) => Some(StageKey(w.broker, t.leaseToken))
    case RouteHand(p) => Some(StageKey(p.broker, t.leaseToken))
    case LoopHand(w) => Some(StageKey(w.broker, t.leaseToken))
    case SentTo(_) => None
    case OutQueue(_) => None
    case Wire(_) => None
  }

  /** What the accounts say of a stage, by where it sits. */
  ghost predicate SlotOk(s: State, l: Place, t: StageTask) {
    KeyOf(l, t).Some? ==>
      if l.LoopHand? then InHand(s, l.sub, KeyOf(l, t).value)
      else Idle(s, KeyOf(l, t).value) && (l.RouteHand? ==> Ungated(s, KeyOf(l, t).value))
  }

  /** A reference that has just arrived has no gate yet. */
  ghost predicate Ungated(s: State, k: StageKey) {
    k in s.tab.stages ==> s.tab.stages[k].gateSub == None
  }

  ghost predicate PlacesOk(s: State) {
    forall l, t :: In(s.at, l, TaskFrame(t)) ==> SlotOk(s, l, t)
  }

  /** A charged stage owns a gate token of the same stream, or is being given one. */
  ghost predicate Backed(s: State, k: StageKey) {
    k in s.tab.stages && s.tab.stages[k].slotHeld && s.tab.stages[k].sentBy.Some? ==>
      var w := s.tab.stages[k].sentBy.value;
      s.tab.stages[k].gateSub == Some(w)
      || (LoopIs(s, w, Attributed) && In(s.at, LoopHand(w), TaskFrame(s.tab.stages[k].task)))
  }

  ghost predicate AccountsOf(t: Table, loops: map<SubKey, Loop>) {
    && WellLinked(t) && CreditExact(t) && Bounded(t)
    && loops.Keys == t.subs.Keys
    && (forall w :: Conserved(t, loops, w))
  }

  ghost predicate Accounts(s: State) {
    AccountsOf(s.tab, s.loops)
  }

  ghost predicate SlotInv(s: State) {
    Accounts(s) && PlacesOk(s) && (forall k :: Backed(s, k))
  }

  // ---------------------------------------------------------------- what an undisturbed stage keeps

  /** A stage record that lost its charges, or kept them. */
  predicate Calmer(ps: Stage, ps': Stage) {
    && (ps'.slotHeld ==> ps.slotHeld && ps'.sentBy == ps.sentBy && ps'.gateSub == ps.gateSub)
    && (ps'.gateSub == ps.gateSub || ps'.gateSub == None)
    && ps'.task == ps.task
  }

  /** Only stage k (if any) may be charged anew, and only the loop of w (if any) moved. */
  ghost predicate Steady(s: State, s': State, k: Option<StageKey>, w: Option<SubKey>) {
    && (forall k' | k' in s'.tab.stages && k != Some(k') ::
          (if k' in s.tab.stages then Calmer(s.tab.stages[k'], s'.tab.stages[k'])
           else !s'.tab.stages[k'].slotHeld && s'.tab.stages[k'].gateSub == None))
    && (forall x | x in s.loops :: x in s'.loops && (w != Some(x) ==> s'.loops[x] == s.loops[x])
                                   && (!Running(s.loops[x]) ==> !Running(s'.loops[x])))
    && (forall x | x in s'.loops && x !in s.loops :: w == Some(x))
  }

  lemma StaySteady(s: State, s': State, k: Option<StageKey>, w: Option<SubKey>, l: Place, t: StageTask)
    requires Steady(s, s', k, w) && SlotOk(s, l, t)
    requires !(l.LoopHand? && w == Some(l.sub)) && (k.Some? ==> k != KeyOf(l, t))
    requires l.LoopHand? ==> l.sub in s.loops
    ensures SlotOk(s', l, t)
  {
  }

  lemma StayBacked(s: State, s': State, k: Option<StageKey>, w: Option<SubKey>, x: StageKey)
    requires Steady(s, s', k, w) && Backed(s, x) && k != Some(x)
    requires x in s.tab.stages && s.tab.stages[x].slotHeld && s.tab.stages[x].sentBy.Some? ==>
             w != s.tab.stages[x].sentBy || s.tab.stages[x].gateSub == s.tab.stages[x].sentBy
    requires forall v, t :: In(s.at, LoopHand(v), TaskFrame(t)) && w != Some(v) ==> In(s'.at, LoopHand(v), TaskFrame(t))
    ensures Backed(s', x)
  {
  }
}
