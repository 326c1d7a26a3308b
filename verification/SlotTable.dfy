/**
  The two slot accounts of a worker stream, as the critical sections of the executor see
  them: the credit hint (inflight / slotHeld / sentBy) and the capacity gate
  (slots / gateSub). Every function here is one critical section under f.mu, or one
  operation on the slots channel; the accounts are compared with the set of in-flight
  stages that justify them.
 */
module SlotTable {
  import opened Wrappers
  import opened BrokerTypes

  /** The fields of a pendingStage that the slot accounts read and write. */
  datatype Stage = Stage(
    task: StageTask, foreign: bool,
    sentBy: Option<SubKey>, slotHeld: bool, gateSub: Option<SubKey>)

  /** A worker stream: what it serves, its ceiling, its credit counter, and the tokens in its slots channel. */
  datatype Sub = Sub(kms: seq<KindVersion>, maxInflight: nat, inflight: int, slots: nat)

  /**
    stages holds every pendingStage ever created, inflight the ones still registered.
    releases counts gate releases captured by a critical section and not yet executed.
    drift counts, per stream, what the accounts of the slots channel are off by, and why.
   */
  datatype Table = Table(
    stages: map<StageKey, Stage>, inflight: set<StageKey>, subs: map<SubKey, Sub>,
    releases: multiset<SubKey>, drift: Drift)

  /**
    stranded: gate claims that hit an already resolved stage; nobody returns the token.
    doubled: reversed attributions, which return the token and leave the stage its gate.
    regated: in-flight stages whose gate moved on to another stream.
    missed: returns that found the slots channel empty.
   */
  datatype Drift = Drift(
    stranded: multiset<SubKey>, doubled: multiset<SubKey>, regated: multiset<SubKey>, missed: multiset<SubKey>)

  function NoDrift(): Drift {
    Drift(multiset{}, multiset{}, multiset{}, multiset{})
  }

  function NewTable(): Table {
    Table(map[], {}, map[], multiset{}, NoDrift())
  }

  // ---------------------------------------------------------------- critical sections

  function NewStage(task: StageTask, foreign: bool): Stage {
    Stage(task, foreign, None, false, None)
  }

  function Register(t: Table, k: StageKey, task: StageTask, foreign: bool): Table {
    t.(stages := t.stages[k := NewStage(task, foreign)], inflight := t.inflight + {k})
  }

  function Connect(t: Table, w: SubKey, kms: seq<KindVersion>, maxInflight: int): Table {
    t.(subs := t.subs[w := Sub(kms, if maxInflight <= 0 then 1 else maxInflight, 0, 0)])
  }

  /** The guarded decrement shared by drop, deliver and unattribute. */
  function Decrement(subs: map<SubKey, Sub>, w: Option<SubKey>): map<SubKey, Sub> {
    if w.Some? && w.value in subs && subs[w.value].inflight > 0
    then subs[w.value := subs[w.value].(inflight := subs[w.value].inflight - 1)]
    else subs
  }

  /** drop and deliver: the stage leaves inflight, both accounts are cleared once. */
  function Resolve(t: Table, k: StageKey): Table {
    if k !in t.inflight || k !in t.stages then t
    else
      var ps := t.stages[k];
      t.(inflight := t.inflight - {k},
         stages := t.stages[k := ps.(gateSub := None, slotHeld := false,
                                     sentBy := if ps.slotHeld then None else ps.sentBy)],
         subs := if ps.slotHeld then Decrement(t.subs, ps.sentBy) else t.subs,
         releases := t.releases + Captured(ps.gateSub))
  }

  function Captured(w: Option<SubKey>): multiset<SubKey> {
    if w.Some? then multiset{w.value} else multiset{}
  }

  /** attributeToStream reports false exactly for a local stage that has already resolved. */
  predicate Attributable(t: Table, k: StageKey) {
    k in t.stages && (t.stages[k].foreign || k in t.inflight)
  }

  function Attribute(t: Table, k: StageKey, w: SubKey): Table {
    if k !in t.stages || t.stages[k].foreign || k !in t.inflight || t.stages[k].slotHeld || w !in t.subs then t
    else t.(stages := t.stages[k := t.stages[k].(sentBy := Some(w), slotHeld := true)],
            subs := t.subs[w := t.subs[w].(inflight := t.subs[w].inflight + 1)])
  }

  function ClaimGate(t: Table, k: StageKey, w: SubKey): Table {
    if k !in t.stages then t
    else t.(stages := t.stages[k := t.stages[k].(gateSub := Some(w))],
            drift := if k in t.inflight then t.drift.(regated := t.drift.regated + Captured(t.stages[k].gateSub))
                     else t.drift.(stranded := t.drift.stranded + multiset{w}))
  }

  function Unattribute(t: Table, k: StageKey): Table {
    if k !in t.stages || !t.stages[k].slotHeld then t
    else
      var ps := t.stages[k];
      t.(stages := t.stages[k := ps.(slotHeld := false, sentBy := None)],
         subs := Decrement(t.subs, ps.sentBy),
         releases := t.releases + Captured(ps.sentBy),
         drift := t.drift.(doubled := t.drift.doubled + Captured(ps.sentBy)))
  }

  /** onRouteTask's full-buffer arm: the reference is forgotten, nothing else is touched. */
  function Forget(t: Table, k: StageKey): Table {
    t.(inflight := t.inflight - {k})
  }

  // ---------------------------------------------------------------- channel operations

  function AcquireSlot(t: Table, w: SubKey): Table {
    if w !in t.subs then t
    else t.(subs := t.subs[w := t.subs[w].(slots := t.subs[w].slots + 1)])
  }

  /** A non-blocking receive from the slots channel. */
  function ReturnSlot(t: Table, w: SubKey): Table {
    if w !in t.subs then t
    else if t.subs[w].slots == 0 then t.(drift := t.drift.(missed := t.drift.missed + multiset{w}))
    else t.(subs := t.subs[w := t.subs[w].(slots := t.subs[w].slots - 1)])
  }

  /** releaseSlot, executing one release captured earlier. */
  function ExecuteRelease(t: Table, w: SubKey): Table {
    ReturnSlot(t.(releases := t.releases - multiset{w}), w)
  }

  // ---------------------------------------------------------------- the justified sets

  ghost function GateSet(t: Table, w: SubKey): set<StageKey> {
    set k | k in t.inflight && k in t.stages && t.stages[k].gateSub == Some(w)
  }

  ghost function CreditSet(t: Table, w: SubKey): set<StageKey> {
    set k | k in t.inflight && k in t.stages && t.stages[k].slotHeld && t.stages[k].sentBy == Some(w)
  }

  /** References point at existing streams of the same broker; a held slot belongs to an in-flight stage. */
  ghost predicate WellLinked(t: Table) {
    && t.inflight <= t.stages.Keys
    && (forall k | k in t.stages :: StageLinked(t, k, t.stages[k]))
  }

  ghost predicate StageLinked(t: Table, k: StageKey, ps: Stage) {
    && ps.task.leaseToken == k.token
    && (ps.slotHeld ==> k in t.inflight && !ps.foreign)
    && (ps.slotHeld <==> ps.sentBy.Some?)
    && (ps.sentBy.Some? ==> Linked(t, k, ps.sentBy.value))
    && (ps.gateSub.Some? ==> Linked(t, k, ps.gateSub.value))
  }

  ghost predicate Linked(t: Table, k: StageKey, w: SubKey) {
    w in t.subs && w.broker == k.broker
  }

  /** The credit counter is exactly the number of stages it stands for. */
  ghost predicate CreditExact(t: Table) {
    forall w | w in t.subs :: t.subs[w].inflight == |CreditSet(t, w)|
  }

  // ---------------------------------------------------------------- how the sets move

  lemma RegisterSets(t: Table, k: StageKey, task: StageTask, foreign: bool, w: SubKey)
    requires k !in t.stages
    ensures GateSet(Register(t, k, task, foreign), w) == GateSet(t, w)
    ensures CreditSet(Register(t, k, task, foreign), w) == CreditSet(t, w)
  {
  }

  /** Resolving a stage takes exactly its own contribution out of each account's set. */
  lemma ResolveSets(t: Table, k: StageKey, w: SubKey)
    requires k in t.inflight && k in t.stages
    ensures GateSet(Resolve(t, k), w) == GateSet(t, w) - {k}
    ensures CreditSet(Resolve(t, k), w) == CreditSet(t, w) - {k}
    ensures |GateSet(t, w)| == |GateSet(Resolve(t, k), w)| + (if t.stages[k].gateSub == Some(w) then 1 else 0)
    ensures |CreditSet(t, w)| == |CreditSet(Resolve(t, k), w)|
                                 + (if t.stages[k].slotHeld && t.stages[k].sentBy == Some(w) then 1 else 0)
  {
    assert GateSet(Resolve(t, k), w) == GateSet(t, w) - {k};
    assert CreditSet(Resolve(t, k), w) == CreditSet(t, w) - {k};
  }

  lemma AttributeSets(t: Table, k: StageKey, w: SubKey, w': SubKey)
    requires k in t.inflight && k in t.stages && !t.stages[k].slotHeld && !t.stages[k].foreign && w in t.subs
    ensures GateSet(Attribute(t, k, w), w') == GateSet(t, w')
    ensures CreditSet(Attribute(t, k, w), w') == if w' == w then CreditSet(t, w') + {k} else CreditSet(t, w')
    ensures k !in CreditSet(t, w')
  {
  }

  lemma ClaimSets(t: Table, k: StageKey, w: SubKey, w': SubKey)
    requires k in t.stages
    ensures CreditSet(ClaimGate(t, k, w), w') == CreditSet(t, w')
    ensures GateSet(ClaimGate(t, k, w), w')
         == if k !in t.inflight then GateSet(t, w')
            else if w' == w then GateSet(t, w') + {k} else GateSet(t, w') - {k}
  {
  }

  lemma UnattributeSets(t: Table, k: StageKey, w: SubKey)
    requires WellLinked(t) && k in t.stages && t.stages[k].slotHeld
    ensures GateSet(Unattribute(t, k), w) == GateSet(t, w)
    ensures CreditSet(Unattribute(t, k), w) == CreditSet(t, w) - {k}
    ensures |CreditSet(t, w)| == |CreditSet(Unattribute(t, k), w)| + (if t.stages[k].sentBy == Some(w) then 1 else 0)
  {
    assert CreditSet(Unattribute(t, k), w) == CreditSet(t, w) - {k};
  }

  /** Under exact credit the `> 0` guard of the decrement never decides anything. */
  lemma DecrementIsExact(t: Table, k: StageKey)
    requires WellLinked(t) && CreditExact(t) && k in t.stages && t.stages[k].slotHeld
    ensures t.stages[k].sentBy.Some? && t.stages[k].sentBy.value in t.subs
    ensures t.subs[t.stages[k].sentBy.value].inflight > 0
  {
    var w := t.stages[k].sentBy.value;
    assert k in CreditSet(t, w);
  }

  // ---------------------------------------------------------------- what every critical section keeps

  lemma RegisterKeeps(t: Table, k: StageKey, task: StageTask, foreign: bool)
    requires WellLinked(t) && CreditExact(t) && k !in t.stages && task.leaseToken == k.token
    ensures WellLinked(Register(t, k, task, foreign)) && CreditExact(Register(t, k, task, foreign))
  {
    forall w | w in t.subs ensures CreditSet(Register(t, k, task, foreign), w) == CreditSet(t, w) {
      RegisterSets(t, k, task, foreign, w);
    }
  }

  lemma ConnectKeeps(t: Table, w: SubKey, kms: seq<KindVersion>, maxInflight: int)
    requires WellLinked(t) && CreditExact(t) && w !in t.subs
    ensures WellLinked(Connect(t, w, kms, maxInflight)) && CreditExact(Connect(t, w, kms, maxInflight))
  {
    var t' := Connect(t, w, kms, maxInflight);
    assert CreditSet(t', w) == {};
    forall w' | w' in t.subs ensures CreditSet(t', w') == CreditSet(t, w') {
    }
  }

  lemma ResolveKeeps(t: Table, k: StageKey)
    requires WellLinked(t) && CreditExact(t)
    ensures WellLinked(Resolve(t, k)) && CreditExact(Resolve(t, k))
  {
    if k in t.inflight {
      var t' := Resolve(t, k);
      if t.stages[k].slotHeld { DecrementIsExact(t, k); }
      forall w | w in t'.subs ensures t'.subs[w].inflight == |CreditSet(t', w)| {
        ResolveSets(t, k, w);
      }
    }
  }

  lemma AttributeKeeps(t: Table, k: StageKey, w: SubKey)
    requires WellLinked(t) && CreditExact(t) && w.broker == k.broker
    ensures WellLinked(Attribute(t, k, w)) && CreditExact(Attribute(t, k, w))
  {
    var t' := Attribute(t, k, w);
    if k in t.stages && !t.stages[k].foreign && k in t.inflight && !t.stages[k].slotHeld && w in t.subs {
      forall k' | k' in t'.stages ensures StageLinked(t', k', t'.stages[k']) {
        assert StageLinked(t, k', t.stages[k']);
      }
      forall w' | w' in t'.subs ensures t'.subs[w'].inflight == |CreditSet(t', w')| {
        AttributeSets(t, k, w, w');
      }
    }
  }

  lemma ClaimKeeps(t: Table, k: StageKey, w: SubKey)
    requires WellLinked(t) && CreditExact(t) && w in t.subs && w.broker == k.broker
    ensures WellLinked(ClaimGate(t, k, w)) && CreditExact(ClaimGate(t, k, w))
  {
    if k in t.stages {
      forall w' | w' in t.subs ensures CreditSet(ClaimGate(t, k, w), w') == CreditSet(t, w') {
        ClaimSets(t, k, w, w');
      }
    }
  }

  lemma UnattributeKeeps(t: Table, k: StageKey)
    requires WellLinked(t) && CreditExact(t)
    ensures WellLinked(Unattribute(t, k)) && CreditExact(Unattribute(t, k))
  {
    if k in t.stages && t.stages[k].slotHeld {
      var t' := Unattribute(t, k);
      DecrementIsExact(t, k);
      forall w | w in t'.subs ensures t'.subs[w].inflight == |CreditSet(t', w)| {
        UnattributeSets(t, k, w);
      }
    }
  }

  lemma ForgetKeeps(t: Table, k: StageKey)
    requires WellLinked(t) && CreditExact(t) && (k in t.stages ==> !t.stages[k].slotHeld)
    ensures WellLinked(Forget(t, k)) && CreditExact(Forget(t, k))
  {
    forall w | w in t.subs ensures CreditSet(Forget(t, k), w) == CreditSet(t, w) {
    }
  }

  /** Slot-channel operations leave both sets alone. */
  lemma SlotMoveKeeps(t: Table, t': Table)
    requires t'.stages == t.stages && t'.inflight == t.inflight && t'.subs.Keys == t.subs.Keys
    requires forall w | w in t.subs :: t'.subs[w].inflight == t.subs[w].inflight
    ensures forall w :: GateSet(t', w) == GateSet(t, w) && CreditSet(t', w) == CreditSet(t, w)
    ensures WellLinked(t) ==> WellLinked(t')
    ensures CreditExact(t) ==> CreditExact(t')
  {
    forall w ensures GateSet(t', w) == GateSet(t, w) && CreditSet(t', w) == CreditSet(t, w) {
    }
  }
}
