/**
  The broker fanout and the mesh as one transition system over any number of brokers.
  One step is one critical section under f.mu, one channel operation, one frame on a route
  or one stream send; a select is a choice among its enabled arms. The answers of the
  claim gate, of timers, of the network and of the workers are arbitrary, so what is proved
  of a run holds whatever they answer.
 */
module Protocol {
  import opened BrokerTypes
  import opened SlotTable
  import opened Custody

  const BUFFER_CAP := 1024
  const ROUTE_SEND_BUF := 4096
  const SENT_COMPACT_AT := 4096

  /** Where the main loop of a WorkStream handler stands. */
  datatype Loop =
    | NeedSlot                    // acquiring a capacity-gate slot
    | HaveSlot                    // holding one slot, waiting on merged
    | Taken                       // a task was received from merged
    | Cleared                     // it passed the readiness guard
    | Bounced                     // it failed the guard: requeue, before the liveness look
    | BouncingBack                // requeue, after the liveness look
    | Attributed                  // attributeToStream returned true
    | Claimed                     // claimGateSlot ran; about to Send
    | Compacting                  // the sent slice grew to its cadence
    | SendFailed                  // Send returned an error
    | FailBounced                 // unattributed; requeue, before the liveness look
    | FailingBack                 // requeue, after the liveness look
    | Exiting(held: bool)         // the loop returned; deferred functions start
    | Abandoning(i: nat)          // abandon: next token of sent
    | AbandonSending(i: nat)      // abandon: found in flight, about to send on its channel
    | Removing                    // stop is closed; removeSubscriber is next
    | Exited

  /** The goroutine that waits for a stage: dispatchStage, or onRouteTask's forwarder. */
  datatype Waiter =
    | Placing                             // registered; about to ask the local gate
    | Trying                              // gate said no local worker: about to push
    | Retry                               // push refused: waiting for the next tick
    | Pushed(peer: PeerKey)               // push accepted; pushedTo not recorded yet
    | Queueing                            // gate said local: about to send on the buffer
    | ParkedLocal
    | ParkedRemote(peer: PeerKey)
    | Forwarder(peer: PeerKey)            // foreign stage, owner captured
    | ForwarderTook(peer: PeerKey, sc: StageComplete)
    | Dropping(outcome: Outcome)
    | Done(outcome: Outcome)

  datatype Outcome = Returned(sc: StageComplete) | Cancelled | Relayed

  datatype Delivery = Delivery(key: StageKey, sc: StageComplete)

  /**
    results is the buffered(1) result channel of each stage (a key is present when a value
    waits). deliveries are results resolved by deliver() and not yet sent on the channel;
    wakes are the channels collected by onPeerGone() and not yet sent to.
   */
  datatype Mail = Mail(
    results: map<StageKey, StageComplete>, waiters: map<StageKey, Waiter>,
    pushedTo: map<StageKey, PeerKey>, deliveries: multiset<Delivery>, wakes: multiset<StageKey>)

  datatype Peer = Peer(member: nat, cancelled: bool, scanned: bool)

  datatype Event = ReadyChecked(sub: SubKey, task: StageTask, ready: bool) | HandedOver(sub: SubKey, task: StageTask)

  /** used: tokens ever minted; said: every Complete a worker sent; log: checks and handoffs. */
  datatype History = History(used: set<Token>, said: set<StageComplete>, log: seq<Event>)

  datatype State = State(
    tab: Table, loops: map<SubKey, Loop>, sent: map<SubKey, seq<Token>>,
    unready: set<(SubKey, KindVersion)>, fanGone: set<(SubKey, nat)>,
    at: Places, mail: Mail, peers: map<PeerKey, Peer>, hist: History)

  // ---------------------------------------------------------------- steps

  /** The main loop of a stream, up to the readiness guard. */
  datatype PullAct =
    | Connect(kms: seq<KindVersion>, maxInflight: int) | Acquire | Receive(i: nat) | CheckReady | BounceLook | BounceSend

  /** The main loop of a stream, from attribution to the send. */
  datatype SendAct = AttributeTask | Claim | SendOk | SendError | Compact

  /** Leaving the main loop. */
  datatype LeaveAct = UnattributeTask | FailLook | FailSend | LeaveLoop | ReturnHeld

  /** The deferred functions of a stream. */
  datatype AbandonAct = AbandonLook | AbandonSend | CloseStop | Remove

  /** A fan-in goroutine. */
  datatype FanAct = Pop | StopArm | BackSend | BackStop | Quit

  /** dispatchStage until the stage is placed. */
  datatype PlaceAct =
    | RegisterTask(task: StageTask) | GateLocal | GateRemote | Push(peer: PeerKey, i: nat) | PushRefused | RetryTick
    | RecordPush | Enqueue(i: nat) | GiveUp(i: nat)

  /** dispatchStage, parked; and the drop every waiter ends with. */
  datatype ParkAct = Timeout | TakeResult | PeerGoneArm | Drop

  /** onRouteTask and its forwarder. */
  datatype ForeignAct = ForeignEnqueue(peer: PeerKey, i: nat) | ForwardTake | ForwardHome | OwnerGone

  datatype RouteAct =
    | Publish(member: nat) | Cancel | Scan | Transmit | LoseFrame | ReceiveTask(at: PeerKey) | ReceiveComplete(at: PeerKey)

  datatype EnvAct =
    | Readiness(sub: SubKey, kv: KindVersion, ready: bool) | WorkerComplete(sub: SubKey, sc: StageComplete)
    | Release(sub: SubKey) | DeliverSend(d: Delivery) | Wake(key: StageKey)

  datatype Step =
    | OnPull(sub: SubKey, pull: PullAct)
    | OnSend(sub: SubKey, send: SendAct)
    | OnLeave(sub: SubKey, leave: LeaveAct)
    | OnAbandon(sub: SubKey, abandon: AbandonAct)
    | OnFan(sub: SubKey, i: nat, fan: FanAct)
    | OnPlace(key: StageKey, place: PlaceAct)
    | OnPark(key: StageKey, park: ParkAct)
    | OnForeign(key: StageKey, foreign: ForeignAct)
    | OnRoute(peer: PeerKey, route: RouteAct)
    | OnEnv(env: EnvAct)

  // ---------------------------------------------------------------- reading the state

  predicate LoopIs(s: State, w: SubKey, phase: Loop) {
    w in s.loops && s.loops[w] == phase
  }

  predicate WaiterIs(s: State, k: StageKey, phase: Waiter) {
    k in s.mail.waiters && s.mail.waiters[k] == phase
  }

  /** The single task a place holds, when it holds one. */
  predicate HoldsTask(s: State, l: Place) {
    |At(s.at, l)| > 0 && At(s.at, l)[0].TaskFrame?
  }

  function HeldTask(s: State, l: Place): StageTask
    requires HoldsTask(s, l)
  {
    At(s.at, l)[0].task
  }

  function HandKey(s: State, w: SubKey): StageKey
    requires HoldsTask(s, LoopHand(w))
  {
    StageKey(w.broker, HeldTask(s, LoopHand(w)).leaseToken)
  }

  predicate Serves(s: State, w: SubKey, kv: KindVersion) {
    w in s.tab.subs && kv in s.tab.subs[w].kms
  }

  predicate ReadyFor(s: State, w: SubKey, kv: KindVersion) {
    Serves(s, w, kv) && (w, kv) !in s.unready
  }

  /** The stop channel of a stream is closed once its deferred functions reach it. */
  predicate Stopped(s: State, w: SubKey) {
    w in s.loops && (s.loops[w].Removing? || s.loops[w].Exited?)
  }

  predicate Room(s: State, kv: KindVersion, b: nat) {
    |At(s.at, Buffer(b, kv))| < BUFFER_CAP
  }

  predicate TaskAt(s: State, l: Place, i: nat, tok: Token) {
    i < |At(s.at, l)| && At(s.at, l)[i].TaskFrame? && At(s.at, l)[i].task.leaseToken == tok
  }

  function SetLoop(s: State, w: SubKey, phase: Loop): State {
    s.(loops := s.loops[w := phase])
  }

  function SetWaiter(s: State, k: StageKey, phase: Waiter): State {
    s.(mail := s.mail.(waiters := s.mail.waiters[k := phase]))
  }

  function TrySend(results: map<StageKey, StageComplete>, k: StageKey, sc: StageComplete): map<StageKey, StageComplete> {
    if k in results then results else results[k := sc]
  }

  function SentSlice(s: State, w: SubKey): seq<Token> {
    if w in s.sent then s.sent[w] else []
  }

  /** compactSent: keep the tokens still in flight, in order. */
  function KeepLive(tokens: seq<Token>, b: nat, inflight: set<StageKey>): (kept: seq<Token>)
    ensures forall t :: t in kept <==> t in tokens && StageKey(b, t) in inflight
  {
    if tokens == [] then []
    else if StageKey(b, tokens[0]) in inflight
    then [tokens[0]] + KeepLive(tokens[1..], b, inflight)
    else KeepLive(tokens[1..], b, inflight)
  }

  /** deliver(): resolve by token, and leave the result to be sent on the stage's channel. */
  function DeliverAt(s: State, b: nat, sc: StageComplete): State {
    var k := StageKey(b, sc.leaseToken);
    if k !in s.tab.inflight then s
    else s.(tab := Resolve(s.tab, k), mail := s.mail.(deliveries := s.mail.deliveries + multiset{Delivery(k, sc)}))
  }

  // ---------------------------------------------------------------- the main loop of a stream

  predicate CanPull(s: State, w: SubKey, a: PullAct) {
    match a
    case Connect(_, _) => w !in s.loops && w !in s.tab.subs
    case Acquire => LoopIs(s, w, NeedSlot) && w in s.tab.subs && s.tab.subs[w].slots < s.tab.subs[w].maxInflight
    case Receive(i) => LoopIs(s, w, HaveSlot) && HoldsTask(s, FanHand(w, i))
    case CheckReady => LoopIs(s, w, Taken) && HoldsTask(s, LoopHand(w))
    case BounceLook => LoopIs(s, w, Bounced) && HoldsTask(s, LoopHand(w))
    case BounceSend => LoopIs(s, w, BouncingBack) && HoldsTask(s, LoopHand(w))
                       && Room(s, TaskKindVer(HeldTask(s, LoopHand(w))), w.broker)
  }

  predicate CanSend(s: State, w: SubKey, a: SendAct) {
    match a
    case AttributeTask => LoopIs(s, w, Cleared) && HoldsTask(s, LoopHand(w))
    case Claim => LoopIs(s, w, Attributed) && HoldsTask(s, LoopHand(w))
    case SendOk => LoopIs(s, w, Claimed) && HoldsTask(s, LoopHand(w))
    case SendError => LoopIs(s, w, Claimed) && HoldsTask(s, LoopHand(w))
    case Compact => LoopIs(s, w, Compacting)
  }

  function DoPull(s: State, w: SubKey, a: PullAct): State
    requires CanPull(s, w, a)
  {
    match a
    case Connect(kms, maxInflight) =>
      SetLoop(s.(tab := SlotTable.Connect(s.tab, w, kms, maxInflight)), w, NeedSlot)
    case Acquire =>
      SetLoop(s.(tab := AcquireSlot(s.tab, w)), w, HaveSlot)
    case Receive(i) =>
      SetLoop(s.(at := Move(s.at, FanHand(w, i), 0, LoopHand(w))), w, Taken)
    case CheckReady =>
      var task := HeldTask(s, LoopHand(w));
      var ready := ReadyFor(s, w, TaskKindVer(task));
      SetLoop(s.(hist := s.hist.(log := s.hist.log + [ReadyChecked(w, task, ready)])),
              w, if ready then Cleared else Bounced)
    case BounceLook =>
      if HandKey(s, w) in s.tab.inflight then SetLoop(s, w, BouncingBack)
      else SetLoop(s.(at := Take(s.at, LoopHand(w), 0)), w, HaveSlot)
    case BounceSend =>
      SetLoop(s.(at := Move(s.at, LoopHand(w), 0, Buffer(w.broker, TaskKindVer(HeldTask(s, LoopHand(w)))))), w, HaveSlot)
  }

  function DoSend(s: State, w: SubKey, a: SendAct): State
    requires CanSend(s, w, a)
  {
    match a
    case AttributeTask =>
      if Attributable(s.tab, HandKey(s, w))
      then SetLoop(s.(tab := Attribute(s.tab, HandKey(s, w), w)), w, Attributed)
      else SetLoop(s.(at := Take(s.at, LoopHand(w), 0)), w, HaveSlot)
    case Claim =>
      SetLoop(s.(tab := ClaimGate(s.tab, HandKey(s, w), w)), w, Claimed)
    case SendOk =>
      var task := HeldTask(s, LoopHand(w));
      var sent := SentSlice(s, w) + [task.leaseToken];
      SetLoop(s.(at := Move(s.at, LoopHand(w), 0, SentTo(w)), sent := s.sent[w := sent],
                 hist := s.hist.(log := s.hist.log + [HandedOver(w, task)])),
              w, if |sent| >= SENT_COMPACT_AT then Compacting else NeedSlot)
    case SendError =>
      SetLoop(s, w, SendFailed)
    case Compact =>
      SetLoop(s.(sent := s.sent[w := KeepLive(SentSlice(s, w), w.broker, s.tab.inflight)]), w, NeedSlot)
  }

  // ---------------------------------------------------------------- how a stream exits

  predicate CanLeave(s: State, w: SubKey, a: LeaveAct) {
    match a
    case UnattributeTask => LoopIs(s, w, SendFailed) && HoldsTask(s, LoopHand(w))
    case FailLook => LoopIs(s, w, FailBounced) && HoldsTask(s, LoopHand(w))
    case FailSend => LoopIs(s, w, FailingBack) && HoldsTask(s, LoopHand(w))
                     && Room(s, TaskKindVer(HeldTask(s, LoopHand(w))), w.broker)
    case LeaveLoop => LoopIs(s, w, NeedSlot) || LoopIs(s, w, HaveSlot)
    case ReturnHeld => w in s.loops && s.loops[w].Exiting?
  }

  predicate CanAbandon(s: State, w: SubKey, a: AbandonAct) {
    match a
    case AbandonLook => w in s.loops && s.loops[w].Abandoning? && s.loops[w].i < |SentSlice(s, w)|
    case AbandonSend => w in s.loops && s.loops[w].AbandonSending? && s.loops[w].i < |SentSlice(s, w)|
    case CloseStop => w in s.loops && s.loops[w].Abandoning? && s.loops[w].i >= |SentSlice(s, w)|
    case Remove => LoopIs(s, w, Removing)
  }

  function DoLeave(s: State, w: SubKey, a: LeaveAct): State
    requires CanLeave(s, w, a)
  {
    match a
    case UnattributeTask =>
      SetLoop(s.(tab := Unattribute(s.tab, HandKey(s, w))), w, FailBounced)
    case FailLook =>
      if HandKey(s, w) in s.tab.inflight then SetLoop(s, w, FailingBack)
      else SetLoop(s.(at := Take(s.at, LoopHand(w), 0)), w, Exiting(false))
    case FailSend =>
      SetLoop(s.(at := Move(s.at, LoopHand(w), 0, Buffer(w.broker, TaskKindVer(HeldTask(s, LoopHand(w)))))), w, Exiting(false))
    case LeaveLoop =>
      SetLoop(s, w, Exiting(s.loops[w].HaveSlot?))
    case ReturnHeld =>
      SetLoop(if s.loops[w].held then s.(tab := ReturnSlot(s.tab, w)) else s, w, Abandoning(0))
  }

  function DoAbandon(s: State, w: SubKey, a: AbandonAct): State
    requires CanAbandon(s, w, a)
  {
    match a
    case AbandonLook =>
      var i := s.loops[w].i;
      SetLoop(s, w, if StageKey(w.broker, SentSlice(s, w)[i]) in s.tab.inflight then AbandonSending(i) else Abandoning(i + 1))
    case AbandonSend =>
      var i := s.loops[w].i;
      var tok := SentSlice(s, w)[i];
      SetLoop(s.(mail := s.mail.(results := TrySend(s.mail.results, StageKey(w.broker, tok), StreamDropped(tok)))),
              w, Abandoning(i + 1))
    case CloseStop =>
      SetLoop(s, w, Removing)
    case Remove =>
      SetLoop(s, w, Exited)
  }

  // ---------------------------------------------------------------- a fan-in goroutine

  predicate CanFan(s: State, w: SubKey, i: nat, a: FanAct) {
    && w in s.loops && w in s.tab.subs && i < |s.tab.subs[w].kms| && (w, i) !in s.fanGone
    && match a
       case Pop => At(s.at, FanHand(w, i)) == [] && At(s.at, FanBack(w, i)) == []
                   && HoldsTask(s, Buffer(w.broker, s.tab.subs[w].kms[i]))
       case StopArm => Stopped(s, w) && HoldsTask(s, FanHand(w, i))
       case BackSend => HoldsTask(s, FanBack(w, i)) && Room(s, TaskKindVer(HeldTask(s, FanBack(w, i))), w.broker)
       case BackStop => Stopped(s, w) && HoldsTask(s, FanBack(w, i))
       case Quit => Stopped(s, w) && At(s.at, FanHand(w, i)) == [] && At(s.at, FanBack(w, i)) == []
  }

  function DoFan(s: State, w: SubKey, i: nat, a: FanAct): State
    requires CanFan(s, w, i, a)
  {
    match a
    case Pop =>
      s.(at := Move(s.at, Buffer(w.broker, s.tab.subs[w].kms[i]), 0, FanHand(w, i)))
    case StopArm =>
      var k := StageKey(w.broker, HeldTask(s, FanHand(w, i)).leaseToken);
      if k in s.tab.stages && !s.tab.stages[k].foreign && k in s.tab.inflight
      then s.(at := Move(s.at, FanHand(w, i), 0, FanBack(w, i)))
      else s.(at := Take(s.at, FanHand(w, i), 0), fanGone := s.fanGone + {(w, i)})
    case BackSend =>
      s.(at := Move(s.at, FanBack(w, i), 0, Buffer(w.broker, TaskKindVer(HeldTask(s, FanBack(w, i))))),
         fanGone := s.fanGone + {(w, i)})
    case BackStop =>
      s.(at := Take(s.at, FanBack(w, i), 0), fanGone := s.fanGone + {(w, i)})
    case Quit =>
      s.(fanGone := s.fanGone + {(w, i)})
  }

  // ---------------------------------------------------------------- a waiting goroutine

  predicate CanPlace(s: State, k: StageKey, a: PlaceAct) {
    match a
    case RegisterTask(task) => task.leaseToken == k.token && k.token !in s.hist.used
    case GateLocal => WaiterIs(s, k, Placing)
    case GateRemote => WaiterIs(s, k, Placing)
    case Push(p, i) => WaiterIs(s, k, Trying) && p in s.peers && p.broker == k.broker
                       && TaskAt(s, Dispatching(k.broker), i, k.token) && |At(s.at, OutQueue(p))| < ROUTE_SEND_BUF
    case PushRefused => WaiterIs(s, k, Trying)
    case RetryTick => WaiterIs(s, k, Retry)
    case RecordPush => k in s.mail.waiters && s.mail.waiters[k].Pushed?
    case Enqueue(i) => WaiterIs(s, k, Queueing) && TaskAt(s, Dispatching(k.broker), i, k.token)
                       && Room(s, TaskKindVer(At(s.at, Dispatching(k.broker))[i].task), k.broker)
    case GiveUp(i) => (WaiterIs(s, k, Retry) || WaiterIs(s, k, Queueing)) && TaskAt(s, Dispatching(k.broker), i, k.token)
  }

  predicate CanPark(s: State, k: StageKey, a: ParkAct) {
    match a
    case Timeout => k in s.mail.waiters && (s.mail.waiters[k].ParkedLocal? || s.mail.waiters[k].ParkedRemote?)
    case TakeResult => k in s.mail.waiters && (s.mail.waiters[k].ParkedLocal? || s.mail.waiters[k].ParkedRemote?)
                       && k in s.mail.results
    case PeerGoneArm => k in s.mail.waiters && s.mail.waiters[k].ParkedRemote?
                        && s.mail.waiters[k].peer in s.peers && s.peers[s.mail.waiters[k].peer].cancelled
    case Drop => k in s.mail.waiters && s.mail.waiters[k].Dropping?
  }

  predicate CanForeign(s: State, k: StageKey, a: ForeignAct) {
    match a
    case ForeignEnqueue(p, i) => p.broker == k.broker && TaskAt(s, RouteHand(p), i, k.token)
    case ForwardTake => k in s.mail.waiters && s.mail.waiters[k].Forwarder? && k in s.mail.results
    case ForwardHome => k in s.mail.waiters && s.mail.waiters[k].ForwarderTook?
    case OwnerGone => k in s.mail.waiters && s.mail.waiters[k].Forwarder?
                      && s.mail.waiters[k].peer in s.peers && s.peers[s.mail.waiters[k].peer].cancelled
  }

  function DoPlace(s: State, k: StageKey, a: PlaceAct): State
    requires CanPlace(s, k, a)
  {
    match a
    case RegisterTask(task) =>
      SetWaiter(s.(tab := Register(s.tab, k, task, false),
                   at := Put(s.at, Dispatching(k.broker), TaskFrame(task)),
                   hist := s.hist.(used := s.hist.used + {k.token})), k, Placing)
    case GateLocal => SetWaiter(s, k, Queueing)
    case GateRemote => SetWaiter(s, k, Trying)
    case Push(p, i) => SetWaiter(s.(at := Move(s.at, Dispatching(k.broker), i, OutQueue(p))), k, Pushed(p))
    case PushRefused => SetWaiter(s, k, Retry)
    case RetryTick => SetWaiter(s, k, Placing)
    case RecordPush =>
      var p := s.mail.waiters[k].peer;
      var s1 := if k in s.tab.inflight then s.(mail := s.mail.(pushedTo := s.mail.pushedTo[k := p])) else s;
      SetWaiter(s1, k, ParkedRemote(p))
    case Enqueue(i) =>
      SetWaiter(s.(at := Move(s.at, Dispatching(k.broker), i,
                              Buffer(k.broker, TaskKindVer(At(s.at, Dispatching(k.broker))[i].task)))), k, ParkedLocal)
    case GiveUp(i) => SetWaiter(s.(at := Take(s.at, Dispatching(k.broker), i)), k, Dropping(Cancelled))
  }

  function DoPark(s: State, k: StageKey, a: ParkAct): State
    requires CanPark(s, k, a)
  {
    match a
    case Timeout => SetWaiter(s, k, Dropping(Cancelled))
    case TakeResult =>
      SetWaiter(s.(mail := s.mail.(results := s.mail.results - {k})), k, Dropping(Returned(s.mail.results[k])))
    case PeerGoneArm => SetWaiter(s, k, Dropping(Returned(PeerDeparted())))
    case Drop => SetWaiter(s.(tab := Resolve(s.tab, k)), k, Done(s.mail.waiters[k].outcome))
  }

  function DoForeign(s: State, k: StageKey, a: ForeignAct): State
    requires CanForeign(s, k, a)
  {
    match a
    case ForeignEnqueue(p, i) =>
      var kv := TaskKindVer(At(s.at, RouteHand(p))[i].task);
      if Room(s, kv, k.broker) then s.(at := Move(s.at, RouteHand(p), i, Buffer(k.broker, kv)))
      else s.(at := Take(s.at, RouteHand(p), i), tab := Forget(s.tab, k))
    case ForwardTake =>
      SetWaiter(s.(mail := s.mail.(results := s.mail.results - {k})), k,
                ForwarderTook(s.mail.waiters[k].peer, s.mail.results[k]))
    case ForwardHome =>
      var p := s.mail.waiters[k].peer;
      var s1 := if |At(s.at, OutQueue(p))| < ROUTE_SEND_BUF
                then s.(at := Put(s.at, OutQueue(p), CompleteFrame(s.mail.waiters[k].sc))) else s;
      SetWaiter(s1, k, Dropping(Relayed))
    case OwnerGone => SetWaiter(s, k, Dropping(Relayed))
  }

  // ---------------------------------------------------------------- routes and peers

  /** q, held by p's member, is the peerClient through which that member knows p's broker. */
  predicate Accepts(s: State, p: PeerKey, q: PeerKey) {
    p in s.peers && q in s.peers && q.broker == s.peers[p].member && s.peers[q].member == p.broker
  }

  predicate CanRoute(s: State, p: PeerKey, a: RouteAct) {
    match a
    case Publish(member) => p !in s.peers && member != p.broker
    case Cancel => p in s.peers
    case Scan => p in s.peers && s.peers[p].cancelled && !s.peers[p].scanned
    case Transmit => p in s.peers && |At(s.at, OutQueue(p))| > 0
    case LoseFrame => p in s.peers && |At(s.at, Wire(p))| > 0
    case ReceiveTask(q) => Accepts(s, p, q) && HoldsTask(s, Wire(p))
    case ReceiveComplete(q) => Accepts(s, p, q) && |At(s.at, Wire(p))| > 0 && At(s.at, Wire(p))[0].CompleteFrame?
  }

  /** onPeerGone: the in-flight stages of p's broker recorded as pushed to p. */
  ghost function PushedTo(s: State, p: PeerKey): set<StageKey> {
    set k | k in s.tab.inflight && k.broker == p.broker && k in s.mail.pushedTo && s.mail.pushedTo[k] == p
  }

  ghost function DoRoute(s: State, p: PeerKey, a: RouteAct): State
    requires CanRoute(s, p, a)
  {
    match a
    case Publish(member) => s.(peers := s.peers[p := Peer(member, false, false)])
    case Cancel => s.(peers := s.peers[p := s.peers[p].(cancelled := true)])
    case Scan => s.(peers := s.peers[p := s.peers[p].(scanned := true)],
                    mail := s.mail.(wakes := s.mail.wakes + multiset(PushedTo(s, p))))
    case Transmit => s.(at := Move(s.at, OutQueue(p), 0, Wire(p)))
    case LoseFrame => s.(at := Take(s.at, Wire(p), 0))
    case ReceiveTask(q) =>
      var task := HeldTask(s, Wire(p));
      var k := StageKey(q.broker, task.leaseToken);
      SetWaiter(s.(tab := Register(s.tab, k, task, true), at := Move(s.at, Wire(p), 0, RouteHand(q))), k, Forwarder(q))
    case ReceiveComplete(q) =>
      DeliverAt(s.(at := Take(s.at, Wire(p), 0)), q.broker, At(s.at, Wire(p))[0].sc)
  }

  // ---------------------------------------------------------------- workers and background sends

  predicate CanEnv(s: State, a: EnvAct) {
    match a
    case Readiness(w, _, _) => w in s.loops
    case WorkerComplete(w, _) => w in s.loops
    case Release(w) => w in s.tab.releases
    case DeliverSend(d) => d in s.mail.deliveries
    case Wake(k) => k in s.mail.wakes
  }

  function DoEnv(s: State, a: EnvAct): State
    requires CanEnv(s, a)
  {
    match a
    case Readiness(w, kv, ready) =>
      if !Serves(s, w, kv) then s
      else s.(unready := if ready then s.unready - {(w, kv)} else s.unready + {(w, kv)})
    case WorkerComplete(w, sc) =>
      DeliverAt(s.(hist := s.hist.(said := s.hist.said + {sc})), w.broker, sc)
    case Release(w) => s.(tab := ExecuteRelease(s.tab, w))
    case DeliverSend(d) =>
      s.(mail := s.mail.(results := TrySend(s.mail.results, d.key, d.sc), deliveries := s.mail.deliveries - multiset{d}))
    case Wake(k) =>
      s.(mail := s.mail.(results := TrySend(s.mail.results, k, PeerDeparted()), wakes := s.mail.wakes - multiset{k}))
  }

  // ---------------------------------------------------------------- runs

  predicate Can(s: State, step: Step) {
    match step
    case OnPull(w, a) => CanPull(s, w, a)
    case OnSend(w, a) => CanSend(s, w, a)
    case OnLeave(w, a) => CanLeave(s, w, a)
    case OnAbandon(w, a) => CanAbandon(s, w, a)
    case OnFan(w, i, a) => CanFan(s, w, i, a)
    case OnPlace(k, a) => CanPlace(s, k, a)
    case OnPark(k, a) => CanPark(s, k, a)
    case OnForeign(k, a) => CanForeign(s, k, a)
    case OnRoute(p, a) => CanRoute(s, p, a)
    case OnEnv(a) => CanEnv(s, a)
  }

  ghost function Do(s: State, step: Step): State
    requires Can(s, step)
  {
    match step
    case OnPull(w, a) => DoPull(s, w, a)
    case OnSend(w, a) => DoSend(s, w, a)
    case OnLeave(w, a) => DoLeave(s, w, a)
    case OnAbandon(w, a) => DoAbandon(s, w, a)
    case OnFan(w, i, a) => DoFan(s, w, i, a)
    case OnPlace(k, a) => DoPlace(s, k, a)
    case OnPark(k, a) => DoPark(s, k, a)
    case OnForeign(k, a) => DoForeign(s, k, a)
    case OnRoute(p, a) => DoRoute(s, p, a)
    case OnEnv(a) => DoEnv(s, a)
  }

  function Start(): State {
    State(NewTable(), map[], map[], {}, {}, map[],
          Mail(map[], map[], map[], multiset{}, multiset{}), map[], History({}, {}, []))
  }

  /** A run: states[0] is the start, and each next state is the result of an enabled step. */
  ghost predicate Run(states: seq<State>, steps: seq<Step>) {
    && |states| == |steps| + 1
    && states[0] == Start()
    && (forall i | 0 <= i < |steps| :: Stepped(states[i], steps[i], states[i + 1]))
  }

  ghost predicate Stepped(s: State, step: Step, s': State) {
    Can(s, step) && s' == Do(s, step)
  }
}
