/**
  The lifecycle of a resource row and its spec history. Each SQL statement is one guarded
  atomic step; a batched statement is its rows one after another.
 */
module ResourceRows {
  import opened Wrappers

  /** frozen_until: NULL, a finite orphan-grace deadline, or the infinity of a quarantine. */
  datatype Freeze = Live | Orphaned(deadline: int) | Quarantined

  datatype Row = Row(version: int, spec: string, config: Option<string>, generation: nat, freeze: Freeze, deleting: bool)

  datatype Entry = Entry(generation: nat, spec: string)

  /** names is the unique (kind, name) key; history holds spec_versions per resource, oldest first. */
  datatype Db = Db(
    rows: map<nat, Row>, names: map<(string, string), nat>, labels: map<nat, string>,
    history: map<nat, seq<Entry>>, now: int, used: set<nat>)

  datatype Applied = Applied(id: nat, created: bool, changed: bool, generation: nat)

  datatype Apply = Apply(kind: string, name: string, spec: string, config: Option<string>, newId: nat, version: int, labels: string)

  datatype Statement =
    | Upsert(apply: Apply)
    | Reconcile(id: nat)
    | InsertChild(id: nat, kind: string, name: string, version: int, spec: string)
    | UpdateChild(id: nat, spec: string, version: int)
    | MarkOrphaned(id: nat, grace: nat)
    | ClearMark(id: nat)
    | Flip(id: nat, from: int, to: int, spec: string)
    | ValueFlow(id: nat, spec: string)              // a dependent's spec patched from its upstreams' status
    | Rollback(id: nat, generation: nat)            // check out an earlier spec version
    | Quarantine(id: nat)
    | Unquarantine(id: nat)
    | RequestDelete(id: nat)
    | SweepOrphan(id: nat)                          // grace over, kind with a finalizer: teardown is requested
    | SweepRemove(id: nat)                          // grace over, leaf kind: the row is deleted at once
    | Remove(id: nat)                               // any other deletion: a finished teardown, or its owner's
    | Pass

  function HistoryOf(db: Db, id: nat): seq<Entry> {
    if id in db.history then db.history[id] else []
  }

  function SetRow(db: Db, id: nat, row: Row): Db {
    db.(rows := db.rows[id := row])
  }

  // ---------------------------------------------------------------- apply

  predicate Exists(db: Db, a: Apply) {
    (a.kind, a.name) in db.names && db.names[(a.kind, a.name)] in db.rows
  }

  function Created(db: Db, a: Apply): Db {
    db.(rows := db.rows[a.newId := Row(a.version, a.spec, a.config, 1, Live, false)],
        names := db.names[(a.kind, a.name) := a.newId], labels := db.labels[a.newId := a.labels],
        history := db.history[a.newId := HistoryOf(db, a.newId) + [Entry(1, a.spec)]], used := db.used + {a.newId})
  }

  /** UpsertResource: create, or update under the pinned version; only a changed spec makes history. */
  function UpsertResource(db: Db, a: Apply): (Db, Applied) {
    if !Exists(db, a) then (Created(db, a), Applied(a.newId, true, true, 1))
    else
      var id := db.names[(a.kind, a.name)];
      var row := db.rows[id];
      var bodyChanged := row.spec != a.spec;
      var bump := bodyChanged || row.config != a.config;
      var relabel := !(id in db.labels && db.labels[id] == a.labels);
      var db1 := if bump then SetRow(db, id, row.(spec := a.spec, config := a.config, generation := row.generation + 1)) else db;
      var db2 := if relabel then db1.(labels := db1.labels[id := a.labels]) else db1;
      var db3 := if bodyChanged then db2.(history := db2.history[id := HistoryOf(db, id) + [Entry(row.generation + 1, a.spec)]]) else db2;
      (db3, Applied(id, false, bump || relabel, if bump then row.generation + 1 else row.generation))
  }

  // ---------------------------------------------------------------- the statements that touch one row

  predicate GraceOver(row: Row, now: int) {
    !row.deleting && row.freeze.Orphaned? && row.freeze.deadline < now
  }

  function Touch(row: Row, s: Statement, now: int): Row {
    match s
    case Reconcile(_) => row.(generation := row.generation + 1)
    case UpdateChild(_, spec, version) =>
      if !row.deleting && (row.spec != spec || row.version != version)
      then row.(spec := spec, version := version, generation := row.generation + 1) else row
    case MarkOrphaned(_, grace) =>
      if !row.deleting && row.freeze == Live then row.(freeze := Orphaned(now + grace)) else row
    case ClearMark(_) =>
      if row.freeze.Orphaned? then row.(freeze := Live) else row
    case Flip(_, from, to, spec) =>
      if row.version == from && !row.deleting && row.freeze == Live
      then row.(version := to, spec := spec, generation := row.generation + 1) else row
    case ValueFlow(_, spec) =>
      if row.freeze == Live && row.spec != spec then row.(spec := spec, generation := row.generation + 1) else row
    case Quarantine(_) =>
      if !row.deleting && row.freeze != Quarantined then row.(freeze := Quarantined) else row
    case Unquarantine(_) =>
      if row.freeze == Quarantined then row.(freeze := Live) else row
    case RequestDelete(_) =>
      if !row.deleting then row.(deleting := true, freeze := Live) else row
    case SweepOrphan(_) =>
      if GraceOver(row, now) then row.(deleting := true, freeze := Live) else row
    case _ => row
  }

  predicate OneRow(s: Statement) {
    !s.Upsert? && !s.InsertChild? && !s.Rollback? && !s.SweepRemove? && !s.Remove? && !s.Pass?
  }

  predicate Enabled(db: Db, s: Statement) {
    match s
    case Upsert(a) => a.newId !in db.used
    case InsertChild(id, kind, name, _, _) => id !in db.used && (kind, name) !in db.names
    case _ => true
  }

  function ExecuteRow(db: Db, s: Statement): Db
    requires OneRow(s)
  {
    if s.id in db.rows then SetRow(db, s.id, Touch(db.rows[s.id], s, db.now)) else db
  }

  function Execute(db: Db, s: Statement): Db
    requires Enabled(db, s)
  {
    if OneRow(s) then ExecuteRow(db, s)
    else
      match s
      case Upsert(a) => UpsertResource(db, a).0
      case InsertChild(id, kind, name, version, spec) =>
        db.(rows := db.rows[id := Row(version, spec, None, 1, Live, false)], names := db.names[(kind, name) := id], used := db.used + {id})
      case Rollback(id, generation) => RollbackToSpec(db, id, generation)
      case SweepRemove(id) => if id in db.rows && GraceOver(db.rows[id], db.now) then Deleted(db, id) else db
      case Remove(id) => Deleted(db, id)
      case _ => db.(now := db.now + 1)
  }

  /** A row's history, labels and name go with it. */
  function Deleted(db: Db, id: nat): Db {
    db.(rows := db.rows - {id}, history := db.history - {id}, labels := db.labels - {id},
        names := map k | k in db.names && db.names[k] != id :: db.names[k])
  }

  /** The spec authored at a generation, when history has it. */
  function SpecAt(h: seq<Entry>, generation: nat): Option<string> {
    if h == [] then None
    else if h[|h| - 1].generation == generation then Some(h[|h| - 1].spec)
    else SpecAt(h[..|h| - 1], generation)
  }

  /** rollback_to_spec: an unknown generation, or the spec already live, changes nothing; no history is written. */
  function RollbackToSpec(db: Db, id: nat, generation: nat): Db {
    var target := SpecAt(HistoryOf(db, id), generation);
    if id in db.rows && target.Some? && target.value != db.rows[id].spec
    then SetRow(db, id, db.rows[id].(spec := target.value, generation := db.rows[id].generation + 1))
    else db
  }

  function Initial(): Db {
    Db(map[], map[], map[], map[], 0, {})
  }

  ghost predicate Executed(db: Db, s: Statement, db': Db) {
    Enabled(db, s) && db' == Execute(db, s)
  }

  ghost predicate Run(dbs: seq<Db>, ss: seq<Statement>) {
    && |dbs| == |ss| + 1 && dbs[0] == Initial()
    && (forall i | 0 <= i < |ss| :: Executed(dbs[i], ss[i], dbs[i + 1]))
  }

  // ---------------------------------------------------------------- what every statement keeps

  ghost predicate Rising(h: seq<Entry>) {
    forall i, j | 0 <= i < j < |h| :: h[i].generation < h[j].generation
  }

  /** A draining row is not frozen; its history rises and never passes the row's generation. */
  ghost predicate RowOk(db: Db, id: nat) {
    && (id in db.rows ==> id in db.used && (db.rows[id].deleting ==> db.rows[id].freeze == Live))
    && (id in db.rows && HistoryOf(db, id) != [] ==>
          HistoryOf(db, id)[|HistoryOf(db, id)| - 1].generation <= db.rows[id].generation)
    && Rising(HistoryOf(db, id))
    && (HistoryOf(db, id) != [] ==> id in db.used)
  }

  ghost predicate Inv(db: Db) {
    forall id :: RowOk(db, id)
  }

  lemma RowInvKept(db: Db, s: Statement)
    requires Inv(db) && OneRow(s)
    ensures Inv(ExecuteRow(db, s))
  {
    forall id ensures RowOk(ExecuteRow(db, s), id) { assert RowOk(db, id); }
  }

  lemma UpsertRowKept(db: Db, a: Apply, id: nat)
    requires RowOk(db, id) && a.newId !in db.used && (Exists(db, a) ==> RowOk(db, db.names[(a.kind, a.name)]))
    ensures RowOk(UpsertResource(db, a).0, id)
  {
    if Exists(db, a) && id == db.names[(a.kind, a.name)] { EditedRowKept(db, a, id); }
  }

  lemma EditedRowKept(db: Db, a: Apply, id: nat)
    requires Exists(db, a) && id == db.names[(a.kind, a.name)] && RowOk(db, id)
    ensures RowOk(UpsertResource(db, a).0, id)
  {
    var h := HistoryOf(db, id);
    var e := Entry(db.rows[id].generation + 1, a.spec);
    assert Rising(h + [e]);
    assert HistoryOf(UpsertResource(db, a).0, id) == if db.rows[id].spec != a.spec then h + [e] else h;
  }

  lemma UpsertInvKept(db: Db, a: Apply)
    requires Inv(db) && a.newId !in db.used
    ensures Inv(UpsertResource(db, a).0)
  {
    var db' := UpsertResource(db, a).0;
    forall id ensures RowOk(db', id) {
      assert RowOk(db, id);
      UpsertRowKept(db, a, id);
    }
  }

  lemma RollbackInvKept(db: Db, id: nat, generation: nat)
    requires Inv(db)
    ensures Inv(RollbackToSpec(db, id, generation))
  {
    forall x ensures RowOk(RollbackToSpec(db, id, generation), x) { assert RowOk(db, x); }
  }

  lemma InvKept(db: Db, s: Statement)
    requires Inv(db) && Enabled(db, s)
    ensures Inv(Execute(db, s))
  {
    if OneRow(s) { RowInvKept(db, s); }
    else if s.Upsert? { UpsertInvKept(db, s.apply); }
    else if s.Rollback? { RollbackInvKept(db, s.id, s.generation); }
    else { forall id ensures RowOk(Execute(db, s), id) { assert RowOk(db, id); } }
  }

  lemma {:induction false} RunInv(dbs: seq<Db>, ss: seq<Statement>, i: nat)
    requires Run(dbs, ss) && i < |dbs|
    ensures Inv(dbs[i])
  {
    if i > 0 {
      RunInv(dbs, ss, i - 1);
      assert Executed(dbs[i - 1], ss[i - 1], dbs[i]);
      InvKept(dbs[i - 1], ss[i - 1]);
    }
  }

  // ---------------------------------------------------------------- spec history

  /** The newest history entry carries the live spec. */
  ghost predicate Agrees(db: Db, id: nat) {
    var h := HistoryOf(db, id);
    id in db.rows && h != [] ==> h[|h| - 1].spec == db.rows[id].spec
  }

  /** In every run, history generations are distinct and never exceed the row's generation. */
  lemma HistoryIsBounded(dbs: seq<Db>, ss: seq<Statement>, i: nat, id: nat, m: nat, n: nat)
    requires Run(dbs, ss) && i < |dbs| && id in dbs[i].rows && m < |HistoryOf(dbs[i], id)| && n < |HistoryOf(dbs[i], id)|
    ensures var h := HistoryOf(dbs[i], id);
            h[m].generation <= dbs[i].rows[id].generation && (h[m].generation == h[n].generation ==> m == n)
  {
    RunInv(dbs, ss, i);
    assert RowOk(dbs[i], id);
  }

  /** The statements that can rewrite a spec and never write history. */
  predicate Unversioned(s: Statement) {
    s.UpdateChild? || s.Flip? || s.ValueFlow? || s.Rollback?
  }

  /** A statement that rewrites a row's spec without a history entry. */
  predicate RewritesSilently(db: Db, s: Statement, id: nat) {
    Unversioned(s) && s.id == id && id in db.rows
    && (if s.Rollback? then RollbackToSpec(db, id, s.generation) != db else Touch(db.rows[id], s, db.now).spec != db.rows[id].spec)
  }

  /**
    Over one statement history keeps agreeing with the row unless, and only unless, a compose
    update, a flip, a value flow or a rollback rewrote the spec.
   */
  lemma AgreementLostExactlyWhen(dbs: seq<Db>, ss: seq<Statement>, i: nat, id: nat)
    requires Run(dbs, ss) && i < |ss| && Agrees(dbs[i], id) && id in dbs[i].rows && id in dbs[i + 1].rows && HistoryOf(dbs[i], id) != []
    ensures Agrees(dbs[i + 1], id) <==> !RewritesSilently(dbs[i], ss[i], id)
  {
    RunInv(dbs, ss, i);
    assert Executed(dbs[i], ss[i], dbs[i + 1]) && RowOk(dbs[i], id);
  }

  /** Over every run of applies, reconciles and all other statements but those four, the newest entry is the live spec. */
  lemma {:induction false} HistoryAgrees(dbs: seq<Db>, ss: seq<Statement>, i: nat, id: nat)
    requires Run(dbs, ss) && i < |dbs| && forall k | 0 <= k < i :: !(Unversioned(ss[k]) && ss[k].id == id)
    ensures Agrees(dbs[i], id)
  {
    if i > 0 {
      HistoryAgrees(dbs, ss, i - 1, id);
      RunInv(dbs, ss, i - 1);
      assert Executed(dbs[i - 1], ss[i - 1], dbs[i]) && RowOk(dbs[i - 1], id);
      AgreesKept(dbs[i - 1], ss[i - 1], id);
    }
  }

  lemma AgreesKept(db: Db, s: Statement, id: nat)
    requires Enabled(db, s) && RowOk(db, id) && Agrees(db, id) && !(Unversioned(s) && s.id == id)
    ensures Agrees(Execute(db, s), id)
  {
    if s.Upsert? { UpsertAgrees(db, s.apply, id); }
  }

  lemma UpsertAgrees(db: Db, a: Apply, id: nat)
    requires a.newId !in db.used && RowOk(db, id) && Agrees(db, id)
    ensures Agrees(UpsertResource(db, a).0, id)
  {
  }

  /** Applying the same thing again is the identity, and the generation reported is the row's own. */
  lemma ReapplyIsIdentity(db: Db, a: Apply)
    requires Inv(db)
    ensures var (db1, r1) := UpsertResource(db, a);
            && r1.id in db1.rows && r1.generation == db1.rows[r1.id].generation
            && Exists(db1, a) && db1.names[(a.kind, a.name)] == r1.id
            && UpsertResource(db1, a) == (db1, Applied(r1.id, false, false, r1.generation))
            && db1.rows[r1.id].spec == a.spec && db1.rows[r1.id].config == a.config
  {
  }

  /** An apply reports "changed" exactly when the tables change. */
  lemma ChangedMeansChanged(db: Db, a: Apply)
    requires Inv(db) && a.newId !in db.used
    ensures UpsertResource(db, a).1.changed <==> UpsertResource(db, a).0 != db
  {
    var r := UpsertResource(db, a);
    if !Exists(db, a) { assert RowOk(db, a.newId); }
  }

  // ---------------------------------------------------------------- generation

  ghost predicate SameDesire(row: Row, row': Row) {
    row'.spec == row.spec && row'.version == row.version && row'.config == row.config
  }

  /** A row's generation never falls, and rises by one exactly when its spec, version or config changes or a reconcile is forced. */
  lemma GenerationRisesExactlyWhen(dbs: seq<Db>, ss: seq<Statement>, i: nat, id: nat)
    requires Run(dbs, ss) && i < |ss| && id in dbs[i].rows && id in dbs[i + 1].rows
    ensures dbs[i + 1].rows[id].generation in {dbs[i].rows[id].generation, dbs[i].rows[id].generation + 1}
    ensures !SameDesire(dbs[i].rows[id], dbs[i + 1].rows[id]) ==> dbs[i + 1].rows[id].generation == dbs[i].rows[id].generation + 1
    ensures dbs[i + 1].rows[id].generation > dbs[i].rows[id].generation ==>
              !SameDesire(dbs[i].rows[id], dbs[i + 1].rows[id]) || ss[i] == Reconcile(id)
              || (ss[i].Flip? && ss[i].id == id && ss[i].from == ss[i].to && ss[i].spec == dbs[i].rows[id].spec)
  {
    RunInv(dbs, ss, i);
    assert Executed(dbs[i], ss[i], dbs[i + 1]) && RowOk(dbs[i], id);
  }

  // ---------------------------------------------------------------- freeze and teardown

  /** A quarantine ends exactly by an explicit release or by a delete request, and by nothing else. */
  lemma QuarantineEndsExactlyWhen(dbs: seq<Db>, ss: seq<Statement>, i: nat, id: nat)
    requires Run(dbs, ss) && i < |ss| && id in dbs[i].rows && id in dbs[i + 1].rows && dbs[i].rows[id].freeze == Quarantined
    ensures dbs[i + 1].rows[id].freeze != Quarantined <==> ss[i] == Unquarantine(id) || ss[i] == RequestDelete(id)
  {
    RunInv(dbs, ss, i);
    assert Executed(dbs[i], ss[i], dbs[i + 1]) && RowOk(dbs[i], id);
  }

  /** A quarantine survives any stretch of a run without a release or a delete request of the row. */
  lemma {:induction false} QuarantineSurvives(dbs: seq<Db>, ss: seq<Statement>, i: nat, j: nat, id: nat)
    requires Run(dbs, ss) && i <= j < |dbs| && (forall k | i <= k <= j :: id in dbs[k].rows)
    requires dbs[i].rows[id].freeze == Quarantined
    requires forall k | i <= k < j :: ss[k] != Unquarantine(id) && ss[k] != RequestDelete(id)
    ensures dbs[j].rows[id].freeze == Quarantined
  {
    if i < j {
      QuarantineSurvives(dbs, ss, i, j - 1, id);
      QuarantineEndsExactlyWhen(dbs, ss, j - 1, id);
    }
  }

  /** An orphan deadline is never moved: it stays, or the row stops being orphaned altogether. */
  lemma DeadlineNeverMoves(dbs: seq<Db>, ss: seq<Statement>, i: nat, id: nat)
    requires Run(dbs, ss) && i < |ss| && id in dbs[i].rows && id in dbs[i + 1].rows
    requires dbs[i].rows[id].freeze.Orphaned? && dbs[i + 1].rows[id].freeze.Orphaned?
    ensures dbs[i + 1].rows[id].freeze == dbs[i].rows[id].freeze
  {
    RunInv(dbs, ss, i);
    assert Executed(dbs[i], ss[i], dbs[i + 1]) && RowOk(dbs[i], id);
  }

  /** Over the whole run: an orphan's deadline is the one its mark set, and it has been orphaned ever since. */
  lemma {:induction false} OrphanedSinceMark(dbs: seq<Db>, ss: seq<Statement>, i: nat, id: nat) returns (m: nat, grace: nat)
    requires Run(dbs, ss) && i < |dbs| && id in dbs[i].rows && dbs[i].rows[id].freeze.Orphaned?
    ensures m < i && ss[m] == MarkOrphaned(id, grace) && dbs[i].rows[id].freeze == Orphaned(dbs[m].now + grace)
    ensures forall n | m < n <= i :: id in dbs[n].rows && dbs[n].rows[id].freeze == dbs[i].rows[id].freeze
  {
    RunInv(dbs, ss, i - 1);
    assert Executed(dbs[i - 1], ss[i - 1], dbs[i]) && RowOk(dbs[i - 1], id);
    MarkOrStay(dbs[i - 1], ss[i - 1], id);
    if id in dbs[i - 1].rows && dbs[i - 1].rows[id].freeze == dbs[i].rows[id].freeze {
      m, grace := OrphanedSinceMark(dbs, ss, i - 1, id);
    } else {
      m, grace := i - 1, ss[i - 1].grace;
    }
  }

  /** A row that is orphaned after a statement was so before, with the same deadline, or was just marked. */
  lemma MarkOrStay(db: Db, s: Statement, id: nat)
    requires Enabled(db, s) && RowOk(db, id) && id in Execute(db, s).rows && Execute(db, s).rows[id].freeze.Orphaned?
    ensures (id in db.rows && db.rows[id].freeze == Execute(db, s).rows[id].freeze)
            || (s.MarkOrphaned? && s.id == id && Execute(db, s).rows[id].freeze == Orphaned(db.now + s.grace))
  {
  }

  /** A sweep takes a row: its teardown starts, or the row is gone. */
  ghost predicate Swept(db: Db, s: Statement, db': Db, id: nat) {
    (s == SweepOrphan(id) || s == SweepRemove(id)) && id in db.rows && (id !in db'.rows || db'.rows[id] != db.rows[id])
  }

  /**
    A sweep that takes a row, whichever way its kind goes, comes after the grace of the mark
    that orphaned it, and nothing re-adopted it in between.
   */
  lemma SweptAfterGrace(dbs: seq<Db>, ss: seq<Statement>, i: nat, id: nat) returns (m: nat, grace: nat)
    requires Run(dbs, ss) && i < |ss| && Swept(dbs[i], ss[i], dbs[i + 1], id)
    ensures m < i && ss[m] == MarkOrphaned(id, grace) && dbs[m].now + grace < dbs[i].now
    ensures forall n | m < n <= i :: id in dbs[n].rows && dbs[n].rows[id].freeze == Orphaned(dbs[m].now + grace)
  {
    assert Executed(dbs[i], ss[i], dbs[i + 1]);
    m, grace := OrphanedSinceMark(dbs, ss, i, id);
  }

  /** A sweep starts teardown only after the deadline set when the row was dropped. */
  lemma TeardownStartsExactlyWhen(dbs: seq<Db>, ss: seq<Statement>, i: nat, id: nat)
    requires Run(dbs, ss) && i < |ss| && id in dbs[i].rows && id in dbs[i + 1].rows && !dbs[i].rows[id].deleting
    ensures dbs[i + 1].rows[id].deleting <==>
              ss[i] == RequestDelete(id)
              || (ss[i] == SweepOrphan(id) && dbs[i].rows[id].freeze.Orphaned? && dbs[i].rows[id].freeze.deadline < dbs[i].now)
  {
    RunInv(dbs, ss, i);
    assert Executed(dbs[i], ss[i], dbs[i + 1]) && RowOk(dbs[i], id);
  }

  /** The apply addresses this row and asks for another spec or config. */
  predicate Edits(db: Db, a: Apply, id: nat) {
    Exists(db, a) && db.names[(a.kind, a.name)] == id && (db.rows[id].spec != a.spec || db.rows[id].config != a.config)
  }

  /**
    A draining row changes by a statement if and only if it is an apply that edits it, a
    forced reconcile, a value flow into it that differs, or a rollback to another spec.
    Compose updates, orphan marks, re-adoptions, flips, quarantines and sweeps never touch it.
   */
  lemma DrainingChangesExactlyWhen(dbs: seq<Db>, ss: seq<Statement>, i: nat, id: nat)
    requires Run(dbs, ss) && i < |ss| && id in dbs[i].rows && id in dbs[i + 1].rows && dbs[i].rows[id].deleting
    ensures dbs[i + 1].rows[id] != dbs[i].rows[id] <==>
              || (ss[i].Upsert? && Edits(dbs[i], ss[i].apply, id))
              || ss[i] == Reconcile(id)
              || (ss[i].ValueFlow? && ss[i].id == id && ss[i].spec != dbs[i].rows[id].spec)
              || (ss[i].Rollback? && ss[i].id == id && RewritesSilently(dbs[i], ss[i], id))
  {
    RunInv(dbs, ss, i);
    assert Executed(dbs[i], ss[i], dbs[i + 1]) && RowOk(dbs[i], id);
  }

  /** Compose updates, orphan marks, re-adoptions, flips and quarantines leave a draining row exactly as it is. */
  lemma DrainingIsLeftAlone(dbs: seq<Db>, ss: seq<Statement>, i: nat, s: Statement)
    requires Run(dbs, ss) && i < |dbs|
    requires s.UpdateChild? || s.MarkOrphaned? || s.ClearMark? || s.Flip? || s.Quarantine? || s.Unquarantine?
    requires s.id in dbs[i].rows && dbs[i].rows[s.id].deleting
    ensures Execute(dbs[i], s) == dbs[i]
  {
    RunInv(dbs, ss, i);
    assert RowOk(dbs[i], s.id);
  }

  /** A redelivered flip does nothing; so does a flip of a frozen row. */
  lemma FlipOnce(db: Db, id: nat, from: int, to: int, spec: string)
    requires id in db.rows && from != to
    ensures var s := Flip(id, from, to, spec);
            && Execute(Execute(db, s), s) == Execute(db, s)
            && (db.rows[id].freeze != Live ==> Execute(db, s) == db)
  {
  }

  // ---------------------------------------------------------------- the tables, updated in place

  function ExecuteAll(db: Db, ss: seq<Statement>): Db
    requires forall i | 0 <= i < |ss| :: OneRow(ss[i])
  {
    if ss == [] then db else ExecuteRow(ExecuteAll(db, ss[..|ss| - 1]), ss[|ss| - 1])
  }

  function IdOf(s: Statement): Option<nat> {
    if OneRow(s) then Some(s.id) else None
  }

  ghost predicate DistinctRows(ss: seq<Statement>) {
    forall i, j | 0 <= i < j < |ss| :: IdOf(ss[i]) != IdOf(ss[j])
  }

  /** The statement of a batch that addresses a row. */
  function For(ss: seq<Statement>, id: nat): (s: Option<Statement>)
    ensures s.Some? ==> s.value in ss && IdOf(s.value) == Some(id)
    ensures s.None? ==> forall i | 0 <= i < |ss| :: IdOf(ss[i]) != Some(id)
  {
    if ss == [] then None else if IdOf(ss[|ss| - 1]) == Some(id) then Some(ss[|ss| - 1]) else For(ss[..|ss| - 1], id)
  }

  /** The one UPDATE ... FROM unnest: every row at once, each joined with its own entry of the batch. */
  function SetUpdate(db: Db, ss: seq<Statement>): Db {
    db.(rows := map id | id in db.rows ::
      var s := For(ss, id); if s.Some? then Touch(db.rows[id], s.value, db.now) else db.rows[id])
  }

  /** With distinct ids the set-based UPDATE and the rows one after another agree. */
  lemma {:induction false} SetUpdateIsRowByRow(db: Db, ss: seq<Statement>)
    requires (forall i | 0 <= i < |ss| :: OneRow(ss[i])) && DistinctRows(ss)
    ensures SetUpdate(db, ss) == ExecuteAll(db, ss)
  {
    if ss == [] {
      assert SetUpdate(db, ss).rows == db.rows;
    } else {
      var rest, last := ss[..|ss| - 1], ss[|ss| - 1];
      SetUpdateIsRowByRow(db, rest);
      assert For(rest, last.id).None?;
      assert SetUpdate(db, ss).rows == ExecuteRow(SetUpdate(db, rest), last).rows;
    }
  }

  class Tables {
    var rows: map<nat, Row>
    var names: map<(string, string), nat>
    var labels: map<nat, string>
    var history: map<nat, seq<Entry>>
    var now: int
    ghost var used: set<nat>

    constructor ()
      ensures View() == Initial()
    {
      rows, names, labels, history, now, used := map[], map[], map[], map[], 0, {};
    }

    ghost function View(): Db
      reads this
    {
      Db(rows, names, labels, history, now, used)
    }

    method UpsertResourceRow(a: Apply) returns (r: Applied)
      modifies this
      ensures (View(), r) == UpsertResource(old(View()), a)
    {
      var key := (a.kind, a.name);
      if !(key in names && names[key] in rows) {
        rows := rows[a.newId := Row(a.version, a.spec, a.config, 1, Live, false)];
        names := names[key := a.newId];
        labels := labels[a.newId := a.labels];
        history := history[a.newId := (if a.newId in history then history[a.newId] else []) + [Entry(1, a.spec)]];
        used := used + {a.newId};
        return Applied(a.newId, true, true, 1);
      }
      var id := names[key];
      var row := rows[id];
      var changed, generation := false, row.generation;
      if row.spec != a.spec || row.config != a.config {
        generation := row.generation + 1;
        rows := rows[id := row.(spec := a.spec, config := a.config, generation := generation)];
        changed := true;
      }
      if !(id in labels && labels[id] == a.labels) {
        labels := labels[id := a.labels];
        changed := true;
      }
      if row.spec != a.spec {
        history := history[id := (if id in history then history[id] else []) + [Entry(generation, a.spec)]];
      }
      return Applied(id, false, changed, generation);
    }

    /** The rows of one of the batched statements, one after another; a row that is gone is skipped. */
    method Batch(ss: seq<Statement>)
      requires forall i | 0 <= i < |ss| :: OneRow(ss[i])
      modifies this`rows
      ensures View() == ExecuteAll(old(View()), ss)
    {
      for i := 0 to |ss|
        invariant View() == ExecuteAll(old(View()), ss[..i])
      {
        assert ss[..i + 1][..i] == ss[..i];
        if ss[i].id in rows {
          rows := rows[ss[i].id := Touch(rows[ss[i].id], ss[i], now)];
        }
      }
      assert ss[..|ss|] == ss;
    }
  }

  // ---------------------------------------------------------------- concrete runs

  const NETWORK := Apply("vpc", "net", "a", None, 1, 1, "")

  lemma TwoStatements(s1: Statement, s2: Statement) returns (dbs: seq<Db>)
    requires Enabled(Initial(), s1) && Enabled(Execute(Initial(), s1), s2)
    ensures Run(dbs, [s1, s2]) && dbs[1] == Execute(Initial(), s1) && dbs[2] == Execute(dbs[1], s2)
  {
    dbs := [Initial(), Execute(Initial(), s1), Execute(Execute(Initial(), s1), s2)];
    assert Executed(dbs[0], s1, dbs[1]) && Executed(dbs[1], s2, dbs[2]);
  }

  lemma Extend(dbs: seq<Db>, ss: seq<Statement>, s: Statement)
    requires Run(dbs, ss) && Enabled(dbs[|ss|], s)
    ensures Run(dbs + [Execute(dbs[|ss|], s)], ss + [s])
  {
    var dbs', ss' := dbs + [Execute(dbs[|ss|], s)], ss + [s];
    forall i | 0 <= i < |ss'| ensures Executed(dbs'[i], ss'[i], dbs'[i + 1]) {
      if i < |ss| { assert Executed(dbs[i], ss[i], dbs[i + 1]); }
    }
  }

  /** Each unversioned statement can leave the newest history entry behind the live spec. */
  lemma HistoryCanDisagree(s: Statement) returns (dbs: seq<Db>)
    requires s in {UpdateChild(1, "b", 1), Flip(1, 1, 2, "b"), ValueFlow(1, "b")}
    ensures Run(dbs, [Upsert(NETWORK), s]) && 1 in dbs[2].rows && HistoryOf(dbs[2], 1) == [Entry(1, "a")] && dbs[2].rows[1].spec == "b"
  {
    dbs := TwoStatements(Upsert(NETWORK), s);
  }

  /** And so can a rollback, once there are two versions to choose from. */
  lemma RollbackCanDisagree() returns (dbs: seq<Db>, ss: seq<Statement>)
    ensures Run(dbs, ss) && |ss| == 3 && ss[2] == Rollback(1, 1) && 1 in dbs[3].rows
    ensures HistoryOf(dbs[3], 1) == [Entry(1, "a"), Entry(2, "b")] && dbs[3].rows[1].spec == "a"
  {
    var edit := Upsert(NETWORK.(spec := "b", newId := 2));
    dbs := TwoStatements(Upsert(NETWORK), edit);
    assert HistoryOf(dbs[2], 1) == [Entry(1, "a"), Entry(2, "b")];
    assert [Entry(1, "a"), Entry(2, "b")][..1] == [Entry(1, "a")];
    assert SpecAt(HistoryOf(dbs[2], 1), 1) == Some("a");
    Extend(dbs, [Upsert(NETWORK), edit], Rollback(1, 1));
    dbs, ss := dbs + [Execute(dbs[2], Rollback(1, 1))], [Upsert(NETWORK), edit] + [Rollback(1, 1)];
  }

  /** A delete request ends a quarantine that nobody released. */
  lemma DeleteEndsQuarantine() returns (dbs: seq<Db>, ss: seq<Statement>)
    ensures Run(dbs, ss) && |ss| == 3 && Unquarantine(1) !in ss && 1 in dbs[2].rows && 1 in dbs[3].rows
    ensures dbs[2].rows[1].freeze == Quarantined && dbs[3].rows[1].freeze == Live && dbs[3].rows[1].deleting
  {
    dbs := TwoStatements(Upsert(NETWORK), Quarantine(1));
    Extend(dbs, [Upsert(NETWORK), Quarantine(1)], RequestDelete(1));
    dbs, ss := dbs + [Execute(dbs[2], RequestDelete(1))], [Upsert(NETWORK), Quarantine(1)] + [RequestDelete(1)];
  }

  /** A value flow rewrites the spec of a row that is being torn down. */
  lemma DrainingCanBeRewritten() returns (dbs: seq<Db>, ss: seq<Statement>)
    ensures Run(dbs, ss) && |ss| == 3 && 1 in dbs[2].rows && 1 in dbs[3].rows
    ensures dbs[2].rows[1].deleting && dbs[2].rows[1].spec == "a" && dbs[3].rows[1].deleting && dbs[3].rows[1].spec == "b"
  {
    dbs := TwoStatements(Upsert(NETWORK), RequestDelete(1));
    Extend(dbs, [Upsert(NETWORK), RequestDelete(1)], ValueFlow(1, "b"));
    dbs, ss := dbs + [Execute(dbs[2], ValueFlow(1, "b"))], [Upsert(NETWORK), RequestDelete(1)] + [ValueFlow(1, "b")];
  }
}
