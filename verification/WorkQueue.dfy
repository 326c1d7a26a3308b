/**
  The claim-epoch fence of the work queue. Each SQL statement is one guarded atomic step
  over the queue and the resources; a claim hands out a ticket, and heartbeats and compose
  stamps are made with the ticket of some claim, however old. Which rows a reap, a release
  or a schedule picks, and when, is arbitrary.
 */
module WorkQueue {
  import opened Wrappers

  /** A reconcile row; there is at most one per resource. Row ids are random and never reused. */
  datatype Work = Work(
    id: nat, shard: int, generation: nat, manifest: int, epoch: nat, broker: Option<string>, heartbeat: int)

  datatype Resource = Resource(generation: nat, composedGen: nat, manifest: int)

  /** What a claim returns and the StageTask carries: the row, its epoch, and what it was queued for. */
  datatype Ticket = Ticket(resource: nat, work: nat, epoch: nat, generation: nat)

  /** queue is keyed by resource; issued holds every ticket handed out, used every row and resource id. */
  datatype Db = Db(
    queue: map<nat, Work>, resources: map<nat, Resource>, now: int, issued: set<Ticket>, used: set<nat>)

  datatype Statement =
    | CreateResource(id: nat, manifest: int)
    | DeleteResource(id: nat)
    | RaiseGeneration(id: nat, manifest: int)                    // apply, reconcile, flip, compose update
    | Schedule(id: nat, shard: int, row: nat)                    // schedule_eligible
    | Resync(id: nat, shard: int, row: nat, recompose: bool)     // requeue_for_resync
    | Claim(id: nat, broker: string)
    | Reap(id: nat)
    | ReleaseTask(id: nat, broker: string)
    | DeleteRow(id: nat)                                         // drained, or garbage-collected
    | Heartbeat(tickets: seq<Ticket>, lo: int, hi: int, skipped: set<nat>)
    | Stamp(ticket: Ticket, manifest: int)
    | Pass                                                       // time passes

  // ---------------------------------------------------------------- the statements

  /** The row still bears the epoch the ticket was claimed under. */
  predicate Current(db: Db, t: Ticket) {
    t.resource in db.queue && db.queue[t.resource].id == t.work && db.queue[t.resource].epoch == t.epoch
  }

  function NewRow(db: Db, id: nat, shard: int, row: nat): Work
    requires id in db.resources
  {
    Work(row, shard, db.resources[id].generation, db.resources[id].manifest, 1, None, db.now)
  }

  /** The claim is given up and the fencing token rises, in one statement. */
  function Freed(db: Db, w: Work): Work {
    w.(broker := None, epoch := w.epoch + 1, heartbeat := db.now)
  }

  /** The manifest fence, inert when either side is 0. */
  predicate ManifestOk(queued: int, given: int) {
    given == 0 || queued == 0 || queued == given
  }

  predicate StampFence(db: Db, t: Ticket, manifest: int) {
    Current(db, t) && db.queue[t.resource].generation == t.generation && ManifestOk(db.queue[t.resource].manifest, manifest)
  }

  function StampComposedGen(db: Db, t: Ticket, manifest: int): Db {
    if t.resource in db.resources && StampFence(db, t, manifest)
    then db.(resources := db.resources[t.resource := db.resources[t.resource].(composedGen := t.generation)])
    else db
  }

  /** One attested pair: refreshed only in range, when no other writer holds it, and at its own epoch. */
  function Attest(db: Db, t: Ticket, lo: int, hi: int, skipped: set<nat>): Db {
    if Current(db, t) && lo <= db.queue[t.resource].shard <= hi && t.work !in skipped
    then db.(queue := db.queue[t.resource := db.queue[t.resource].(heartbeat := db.now)])
    else db
  }

  function AttestAll(db: Db, ts: seq<Ticket>, lo: int, hi: int, skipped: set<nat>): Db {
    if ts == [] then db else Attest(AttestAll(db, ts[..|ts| - 1], lo, hi, skipped), ts[|ts| - 1], lo, hi, skipped)
  }

  predicate Enabled(db: Db, s: Statement) {
    match s
    case CreateResource(id, _) => id !in db.used
    case DeleteResource(id) => id in db.resources
    case RaiseGeneration(id, _) => id in db.resources
    case Schedule(id, _, row) => id in db.resources && row !in db.used
    case Resync(id, _, row, _) => id in db.resources && row !in db.used
    case Claim(id, _) => id in db.queue && db.queue[id].broker == None
    case Reap(id) => id in db.queue && db.queue[id].broker.Some?
    case ReleaseTask(id, broker) => id in db.queue && db.queue[id].broker == Some(broker)
    case DeleteRow(id) => id in db.queue
    case Heartbeat(ts, _, _, _) => forall t | t in ts :: t in db.issued
    case Stamp(t, _) => t in db.issued
    case Pass => true
  }

  function Execute(db: Db, s: Statement): Db
    requires Enabled(db, s)
  {
    match s
    case CreateResource(id, manifest) =>
      db.(resources := db.resources[id := Resource(1, 0, manifest)], used := db.used + {id})
    case DeleteResource(id) =>
      db.(resources := db.resources - {id}, queue := db.queue - {id})
    case RaiseGeneration(id, manifest) =>
      var r := db.resources[id];
      db.(resources := db.resources[id := r.(generation := r.generation + 1, manifest := manifest)])
    case Schedule(id, shard, row) =>
      if id !in db.queue then db.(queue := db.queue[id := NewRow(db, id, shard, row)], used := db.used + {row})
      else if db.queue[id].generation < db.resources[id].generation then
        db.(queue := db.queue[id := Freed(db, db.queue[id]).(generation := db.resources[id].generation,
                                                             manifest := db.resources[id].manifest)])
      else db
    case Resync(id, shard, row, recompose) =>
      var r := db.resources[id];
      var db1 := if recompose then db.(resources := db.resources[id := r.(composedGen := 0)]) else db;
      if id in db.queue then db1 else db1.(queue := db.queue[id := NewRow(db, id, shard, row)], used := db.used + {row})
    case Claim(id, broker) =>
      var w := db.queue[id];
      db.(queue := db.queue[id := w.(broker := Some(broker), epoch := w.epoch + 1, heartbeat := db.now)],
          issued := db.issued + {Ticket(id, w.id, w.epoch + 1, w.generation)})
    case Reap(id) => db.(queue := db.queue[id := Freed(db, db.queue[id])])
    case ReleaseTask(id, _) => db.(queue := db.queue[id := Freed(db, db.queue[id])])
    case DeleteRow(id) => db.(queue := db.queue - {id})
    case Heartbeat(ts, lo, hi, skipped) => AttestAll(db, ts, lo, hi, skipped)
    case Stamp(t, manifest) => StampComposedGen(db, t, manifest)
    case Pass => db.(now := db.now + 1)
  }

  function Initial(): Db {
    Db(map[], map[], 0, {}, {})
  }

  ghost predicate Run(dbs: seq<Db>, ss: seq<Statement>) {
    && |dbs| == |ss| + 1 && dbs[0] == Initial()
    && (forall i | 0 <= i < |ss| :: Executed(dbs[i], ss[i], dbs[i + 1]))
  }

  ghost predicate Executed(db: Db, s: Statement, db': Db) {
    Enabled(db, s) && db' == Execute(db, s)
  }

  // ---------------------------------------------------------------- what every statement keeps

  /** A queue row was queued at a generation its resource has reached, and never behind what is composed. */
  ghost predicate RowOk(db: Db, id: nat) {
    id in db.queue ==>
      && id in db.resources && db.queue[id].id in db.used
      && db.resources[id].composedGen <= db.queue[id].generation <= db.resources[id].generation
  }

  ghost predicate ResourceOk(db: Db, id: nat) {
    id in db.resources ==> db.resources[id].composedGen <= db.resources[id].generation && id in db.used
  }

  /** A ticket is never ahead of its row; at the row's own epoch it is the ticket of the claim in force. */
  ghost predicate TicketOk(db: Db, t: Ticket) {
    t in db.issued ==>
      && t.work in db.used
      && (t.resource in db.queue && db.queue[t.resource].id == t.work ==>
            t.epoch <= db.queue[t.resource].epoch
            && (t.epoch == db.queue[t.resource].epoch ==>
                  db.queue[t.resource].broker.Some? && t.generation == db.queue[t.resource].generation))
  }

  ghost predicate Inv(db: Db) {
    (forall id :: RowOk(db, id)) && (forall id :: ResourceOk(db, id)) && (forall t :: TicketOk(db, t))
  }

  /** Heartbeats change nothing but heartbeats, and only of rows at the attested epoch. */
  lemma {:induction false} AttestAllKeeps(db: Db, ts: seq<Ticket>, lo: int, hi: int, skipped: set<nat>)
    ensures var db' := AttestAll(db, ts, lo, hi, skipped);
            && db' == db.(queue := db'.queue) && db'.queue.Keys == db.queue.Keys
            && (forall id | id in db.queue :: db'.queue[id] == db.queue[id].(heartbeat := db'.queue[id].heartbeat))
            && (forall id | id in db.queue && db'.queue[id] != db.queue[id] ::
                  exists t | t in ts :: t.resource == id && Current(db, t))
  {
    if ts != [] {
      AttestAllKeeps(db, ts[..|ts| - 1], lo, hi, skipped);
      assert ts[|ts| - 1] in ts;
    }
  }

  lemma AttestKeepsInv(db: Db, ts: seq<Ticket>, lo: int, hi: int, skipped: set<nat>)
    requires Inv(db)
    ensures Inv(AttestAll(db, ts, lo, hi, skipped))
  {
    var db' := AttestAll(db, ts, lo, hi, skipped);
    AttestAllKeeps(db, ts, lo, hi, skipped);
    forall id ensures RowOk(db', id) && ResourceOk(db', id) { assert RowOk(db, id) && ResourceOk(db, id); }
    forall t ensures TicketOk(db', t) { assert TicketOk(db, t); }
  }

  lemma StampKeepsInv(db: Db, t: Ticket, manifest: int)
    requires Inv(db) && t in db.issued
    ensures Inv(StampComposedGen(db, t, manifest))
  {
    var db' := StampComposedGen(db, t, manifest);
    forall id ensures RowOk(db', id) && ResourceOk(db', id) { assert RowOk(db, id) && ResourceOk(db, id); }
    forall t' ensures TicketOk(db', t') { assert TicketOk(db, t'); }
  }

  lemma RowsKept(db: Db, s: Statement)
    requires Inv(db) && Enabled(db, s) && !s.Heartbeat? && !s.Stamp?
    ensures forall id :: RowOk(Execute(db, s), id) && ResourceOk(Execute(db, s), id)
  {
    forall id ensures RowOk(Execute(db, s), id) && ResourceOk(Execute(db, s), id) {
      assert RowOk(db, id) && ResourceOk(db, id);
    }
  }

  lemma TicketsKept(db: Db, s: Statement)
    requires Inv(db) && Enabled(db, s) && !s.Heartbeat? && !s.Stamp?
    ensures forall t :: TicketOk(Execute(db, s), t)
  {
    forall t ensures TicketOk(Execute(db, s), t) {
      assert TicketOk(db, t);
      if t.resource in db.queue { assert RowOk(db, t.resource); }
    }
  }

  lemma InvKept(db: Db, s: Statement)
    requires Inv(db) && Enabled(db, s)
    ensures Inv(Execute(db, s))
  {
    match s
    case Heartbeat(ts, lo, hi, skipped) => AttestKeepsInv(db, ts, lo, hi, skipped);
    case Stamp(t, manifest) => StampKeepsInv(db, t, manifest);
    case _ => RowsKept(db, s); TicketsKept(db, s);
  }

  lemma {:induction false} RunInv(dbs: seq<Db>, ss: seq<Statement>, i: nat)
    requires Run(dbs, ss) && i < |dbs|
    ensures Inv(dbs[i])
  {
    if i > 0 {
      RunInv(dbs, ss, i - 1);
      assert Executed(dbs[i - 1], ss[i - 1], dbs[i]);
      InvKept(dbs[i - 1], ss[i - 1]);
    }
  }

  // ---------------------------------------------------------------- stale claims have no effect

  /** An epoch once passed is never current again: epochs rise and row ids are never reused. */
  lemma StaleStaysStale(db: Db, s: Statement, t: Ticket)
    requires Inv(db) && Enabled(db, s) && t in db.issued && !Current(db, t)
    ensures t in Execute(db, s).issued && !Current(Execute(db, s), t)
  {
    assert TicketOk(db, t) && RowOk(db, t.resource);
    if s.Heartbeat? { AttestAllKeeps(db, s.tickets, s.lo, s.hi, s.skipped); }
  }

  lemma {:induction false} StaleForever(dbs: seq<Db>, ss: seq<Statement>, i: nat, j: nat, t: Ticket)
    requires Run(dbs, ss) && i <= j < |dbs| && t in dbs[i].issued && !Current(dbs[i], t)
    ensures t in dbs[j].issued && !Current(dbs[j], t)
  {
    if i < j {
      StaleForever(dbs, ss, i, j - 1, t);
      RunInv(dbs, ss, j - 1);
      assert Executed(dbs[j - 1], ss[j - 1], dbs[j]);
      StaleStaysStale(dbs[j - 1], ss[j - 1], t);
    }
  }

  /** Claiming, reaping and releasing a row, and re-pointing it to a newer generation, end every earlier claim of it. */
  predicate EndsClaims(db: Db, s: Statement, id: nat) {
    match s
    case Claim(x, _) => x == id
    case Reap(x) => x == id
    case ReleaseTask(x, _) => x == id
    case DeleteRow(x) => x == id
    case DeleteResource(x) => x == id
    case Schedule(x, _, _) => x == id && id in db.queue && id in db.resources && db.queue[id].generation < db.resources[id].generation
    case _ => false
  }

  /**
    Stale claims have no effect. Once a row has been re-claimed, reaped, released, re-pointed
    or deleted, then for the rest of the run no stamp and no heartbeat made with an earlier
    claim of it changes anything at all.
   */
  lemma StaleClaimHasNoEffect(dbs: seq<Db>, ss: seq<Statement>, i: nat, j: nat, t: Ticket, manifest: int, lo: int, hi: int, skipped: set<nat>)
    requires Run(dbs, ss) && i < |ss| && i < j < |dbs|
    requires t in dbs[i].issued && EndsClaims(dbs[i], ss[i], t.resource)
    ensures StampComposedGen(dbs[j], t, manifest) == dbs[j]
    ensures Attest(dbs[j], t, lo, hi, skipped) == dbs[j]
  {
    RunInv(dbs, ss, i);
    assert Executed(dbs[i], ss[i], dbs[i + 1]) && TicketOk(dbs[i], t);
    StaleForever(dbs, ss, i + 1, j, t);
  }

  // ---------------------------------------------------------------- what composed_gen can be

  /**
    composed_gen is never ahead of the resource; a stamp only writes the generation the
    current claim was queued for, on behalf of a broker that holds it, and never lowers it.
   */
  lemma StampIsCurrent(dbs: seq<Db>, ss: seq<Statement>, i: nat, t: Ticket, manifest: int)
    requires Run(dbs, ss) && i < |dbs| && t in dbs[i].issued && t.resource in dbs[i].resources
    requires StampComposedGen(dbs[i], t, manifest) != dbs[i]
    ensures Current(dbs[i], t) && dbs[i].queue[t.resource].broker.Some?
    ensures var g := StampComposedGen(dbs[i], t, manifest).resources[t.resource].composedGen;
            && g == dbs[i].queue[t.resource].generation
            && dbs[i].resources[t.resource].composedGen <= g <= dbs[i].resources[t.resource].generation
  {
    RunInv(dbs, ss, i);
    assert TicketOk(dbs[i], t) && RowOk(dbs[i], t.resource);
  }

  /** Over one statement composed_gen falls exactly when a resync asks for a recompose of a composed resource. */
  lemma ComposedFallsExactlyWhen(dbs: seq<Db>, ss: seq<Statement>, i: nat, id: nat)
    requires Run(dbs, ss) && i < |ss| && id in dbs[i].resources && id in dbs[i + 1].resources
    ensures dbs[i + 1].resources[id].composedGen < dbs[i].resources[id].composedGen <==>
            ss[i].Resync? && ss[i].id == id && ss[i].recompose && dbs[i].resources[id].composedGen > 0
  {
    RunInv(dbs, ss, i);
    assert Executed(dbs[i], ss[i], dbs[i + 1]) && RowOk(dbs[i], id) && ResourceOk(dbs[i], id);
    match ss[i]
    case Heartbeat(ts, lo, hi, skipped) => AttestAllKeeps(dbs[i], ts, lo, hi, skipped);
    case Stamp(t, manifest) => assert TicketOk(dbs[i], t) && RowOk(dbs[i], t.resource);
    case _ =>
  }

  ghost predicate NoRecompose(ss: seq<Statement>, i: nat, j: nat, id: nat)
    requires j <= |ss|
  {
    forall k | i <= k < j :: !(ss[k].Resync? && ss[k].id == id && ss[k].recompose)
  }

  /** Over any stretch of a run without a recompose, composed_gen does not decrease; it never exceeds the generation. */
  lemma {:induction false} ComposedIsMonotone(dbs: seq<Db>, ss: seq<Statement>, i: nat, j: nat, id: nat)
    requires Run(dbs, ss) && i <= j < |dbs| && NoRecompose(ss, i, j, id)
    requires forall k | i <= k <= j :: id in dbs[k].resources
    ensures dbs[i].resources[id].composedGen <= dbs[j].resources[id].composedGen <= dbs[j].resources[id].generation
  {
    RunInv(dbs, ss, j);
    assert ResourceOk(dbs[j], id);
    if i < j {
      ComposedIsMonotone(dbs, ss, i, j - 1, id);
      ComposedFallsExactlyWhen(dbs, ss, j - 1, id);
    }
  }

  lemma Extend(dbs: seq<Db>, ss: seq<Statement>, s: Statement)
    requires Run(dbs, ss) && Enabled(dbs[|ss|], s)
    ensures Run(dbs + [Execute(dbs[|ss|], s)], ss + [s])
  {
    var dbs', ss' := dbs + [Execute(dbs[|ss|], s)], ss + [s];
    forall i | 0 <= i < |ss'| ensures Executed(dbs'[i], ss'[i], dbs'[i + 1]) {
      if i < |ss| { assert Executed(dbs[i], ss[i], dbs[i + 1]); }
    }
  }

  lemma ClaimedRun() returns (dbs: seq<Db>, ss: seq<Statement>)
    ensures Run(dbs, ss) && 1 in dbs[|ss|].resources && dbs[|ss|].resources[1] == Resource(1, 0, 0) && 3 !in dbs[|ss|].used
    ensures Ticket(1, 2, 2, 1) in dbs[|ss|].issued && 1 in dbs[|ss|].queue && dbs[|ss|].queue[1] == Work(2, 0, 1, 0, 2, Some("b"), 0)
  {
    dbs, ss := [Initial()], [];
    Extend(dbs, ss, CreateResource(1, 0));
    dbs, ss := dbs + [Execute(dbs[|ss|], CreateResource(1, 0))], ss + [CreateResource(1, 0)];
    Extend(dbs, ss, Schedule(1, 0, 2));
    dbs, ss := dbs + [Execute(dbs[|ss|], Schedule(1, 0, 2))], ss + [Schedule(1, 0, 2)];
    Extend(dbs, ss, Claim(1, "b"));
    dbs, ss := dbs + [Execute(dbs[|ss|], Claim(1, "b"))], ss + [Claim(1, "b")];
  }

  /** A run in which composed_gen falls: a claim, its stamp, and a resync that asks for a recompose. */
  lemma ComposedCanFall() returns (dbs: seq<Db>, ss: seq<Statement>, i: nat)
    ensures Run(dbs, ss) && i < |ss| && ss[i] == Resync(1, 0, 3, true) && 1 in dbs[i].resources && 1 in dbs[i + 1].resources
    ensures dbs[i].resources[1].composedGen == 1 && dbs[i + 1].resources[1].composedGen == 0
  {
    dbs, ss := ClaimedRun();
    var stamp, resync := Stamp(Ticket(1, 2, 2, 1), 0), Resync(1, 0, 3, true);
    Extend(dbs, ss, stamp);
    dbs, ss := dbs + [Execute(dbs[|ss|], stamp)], ss + [stamp];
    Extend(dbs, ss, resync);
    i := |ss|;
    dbs, ss := dbs + [Execute(dbs[|ss|], resync)], ss + [resync];
  }

  // ---------------------------------------------------------------- the tables, updated in place

  class Tables {
    var queue: map<nat, Work>
    var resources: map<nat, Resource>
    var now: int
    ghost var issued: set<Ticket>
    ghost var used: set<nat>

    constructor ()
      ensures View() == Initial()
    {
      queue, resources, now, issued, used := map[], map[], 0, {}, {};
    }

    ghost function View(): Db
      reads this
    {
      Db(queue, resources, now, issued, used)
    }

    /** rows tells the caller whether the compose may commit: it is 1 exactly when the whole fence holds. */
    method StampRow(t: Ticket, manifest: int) returns (rows: nat)
      modifies this`resources
      ensures View() == StampComposedGen(old(View()), t, manifest)
      ensures rows == 1 <==> t.resource in resources && StampFence(old(View()), t, manifest)
      ensures rows == 0 ==> View() == old(View())
    {
      rows := 0;
      if t.resource in resources && t.resource in queue {
        var q := queue[t.resource];
        if q.id == t.work && q.epoch == t.epoch && q.generation == t.generation
           && (manifest == 0 || q.manifest == 0 || q.manifest == manifest) {
          resources := resources[t.resource := resources[t.resource].(composedGen := t.generation)];
          rows := 1;
        }
      }
    }

    /** The join of the attested pairs with the queue, row by row; no pairs is a no-op. */
    method RefreshHeartbeats(ts: seq<Ticket>, lo: int, hi: int, skipped: set<nat>)
      modifies this`queue
      ensures View() == AttestAll(old(View()), ts, lo, hi, skipped)
    {
      for i := 0 to |ts|
        invariant View() == AttestAll(old(View()), ts[..i], lo, hi, skipped)
      {
        assert ts[..i + 1][..i] == ts[..i];
        var t := ts[i];
        if t.resource in queue && queue[t.resource].id == t.work && queue[t.resource].epoch == t.epoch
           && lo <= queue[t.resource].shard <= hi && t.work !in skipped {
          queue := queue[t.resource := queue[t.resource].(heartbeat := now)];
        }
      }
      assert ts[..|ts|] == ts;
    }
  }
}
