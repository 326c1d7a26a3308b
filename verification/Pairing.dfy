/**
  Which spec sits on which pinned version, over every statement that can write either. The
  API validates what it writes. A composed child is validated with its flowed fields left
  out, and a value flow and a rollback not at all.
 */
module Pairing {
  import opened Wrappers
  import opened ResourceRows
  import ApplyApi

  type Name = (string, string)

  predicate Named(db: Db, k: Name) {
    k in db.names && db.names[k] in db.rows
  }

  function RowOf(db: Db, k: Name): Row
    requires Named(db, k)
  {
    db.rows[db.names[k]]
  }

  /** The resource's spec fits the version it is pinned to. */
  ghost predicate FitsAt(schema: ApplyApi.Schema, db: Db, k: Name) {
    Named(db, k) ==> ApplyApi.Fits(schema, k.0, RowOf(db, k).version, RowOf(db, k).spec)
  }

  /** What the API and the store behind it have validated: an apply under the version it ends on, a flip under its target. */
  ghost predicate Checked(schema: ApplyApi.Schema, db: Db, s: Statement) {
    match s
    case Upsert(a) =>
      ApplyApi.Fits(schema, a.kind, if Exists(db, a) then RowOf(db, (a.kind, a.name)).version else a.version, a.spec)
    case Flip(id, _, to, spec) => forall k | k in db.names && db.names[k] == id :: ApplyApi.Fits(schema, k.0, to, spec)
    case _ => true
  }

  ghost predicate CheckedRun(schema: ApplyApi.Schema, dbs: seq<Db>, ss: seq<Statement>) {
    Run(dbs, ss) && forall i | 0 <= i < |ss| :: Checked(schema, dbs[i], ss[i])
  }

  /** The statement writes k a spec that does not fit the version it leaves k on. */
  ghost predicate WritesMisfit(schema: ApplyApi.Schema, db: Db, s: Statement, k: Name) {
    match s
    case InsertChild(_, kind, name, version, spec) => k == (kind, name) && !ApplyApi.Fits(schema, kind, version, spec)
    case UpdateChild(id, spec, version) =>
      && Named(db, k) && db.names[k] == id && !RowOf(db, k).deleting && (RowOf(db, k).spec != spec || RowOf(db, k).version != version)
      && !ApplyApi.Fits(schema, k.0, version, spec)
    case ValueFlow(id, spec) =>
      && Named(db, k) && db.names[k] == id && RowOf(db, k).freeze == Live && RowOf(db, k).spec != spec
      && !ApplyApi.Fits(schema, k.0, RowOf(db, k).version, spec)
    case Rollback(id, generation) =>
      && Named(db, k) && db.names[k] == id
      && var target := SpecAt(HistoryOf(db, id), generation);
         target.Some? && target.value != RowOf(db, k).spec && !ApplyApi.Fits(schema, k.0, RowOf(db, k).version, target.value)
    case _ => false
  }

  /** The statement is no compose, or the composed spec was valid in full. */
  ghost predicate ComposedInFull(schema: ApplyApi.Schema, s: Statement, k: Name) {
    match s
    case InsertChild(_, kind, _, version, spec) => ApplyApi.Fits(schema, kind, version, spec)
    case UpdateChild(_, spec, version) => ApplyApi.Fits(schema, k.0, version, spec)
    case _ => true
  }

  // ---------------------------------------------------------------- names

  /** Two names never share a row, and a named row's id is used up. */
  ghost predicate NamesOk(db: Db) {
    && (forall k, k' | k in db.names && k' in db.names && db.names[k] == db.names[k'] :: k == k')
    && (forall k | k in db.names :: db.names[k] in db.used)
  }

  lemma NamesKept(db: Db, s: Statement)
    requires NamesOk(db) && Enabled(db, s)
    ensures NamesOk(Execute(db, s))
  {
    if OneRow(s) {
      SameNames(db, ExecuteRow(db, s));
    } else {
      match s
      case Upsert(a) => UpsertNames(db, a);
      case InsertChild(_, _, _, _, _) => assert forall k | k in db.names :: db.names[k] in db.used;
      case Rollback(id, generation) => SameNames(db, RollbackToSpec(db, id, generation));
      case SweepRemove(id) => DeletedNames(db, id);
      case Remove(id) => DeletedNames(db, id);
      case Pass => SameNames(db, Execute(db, s));
    }
  }

  lemma SameNames(db: Db, db': Db)
    requires NamesOk(db) && db'.names == db.names && db'.used == db.used
    ensures NamesOk(db')
  {
  }

  lemma UpsertNames(db: Db, a: Apply)
    requires NamesOk(db) && a.newId !in db.used
    ensures NamesOk(UpsertResource(db, a).0)
  {
    assert forall k | k in db.names :: db.names[k] in db.used;
  }

  lemma DeletedNames(db: Db, id: nat)
    requires NamesOk(db)
    ensures NamesOk(Deleted(db, id))
  {
  }

  lemma {:induction false} RunNames(dbs: seq<Db>, ss: seq<Statement>, i: nat)
    requires Run(dbs, ss) && i < |dbs|
    ensures NamesOk(dbs[i])
  {
    if i > 0 {
      RunNames(dbs, ss, i - 1);
      assert Executed(dbs[i - 1], ss[i - 1], dbs[i]);
      NamesKept(dbs[i - 1], ss[i - 1]);
    }
  }

  // ---------------------------------------------------------------- when a spec stops fitting

  lemma FitStep(schema: ApplyApi.Schema, db: Db, s: Statement, k: Name)
    requires NamesOk(db) && Enabled(db, s) && Checked(schema, db, s) && FitsAt(schema, db, k)
    ensures !FitsAt(schema, Execute(db, s), k) <==> WritesMisfit(schema, db, s, k)
  {
    if k in db.names { assert db.names[k] in db.used; }
    if OneRow(s) { TouchFits(schema, db, s, k); }
    else {
      match s
      case Upsert(a) => UpsertFits(schema, db, a, k);
      case InsertChild(_, _, _, _, _) =>
      case Rollback(_, _) =>
      case SweepRemove(id) => DeletedFits(schema, db, id, k);
      case Remove(id) => DeletedFits(schema, db, id, k);
      case Pass =>
    }
  }

  lemma TouchFits(schema: ApplyApi.Schema, db: Db, s: Statement, k: Name)
    requires NamesOk(db) && OneRow(s) && Checked(schema, db, s) && FitsAt(schema, db, k)
    ensures !FitsAt(schema, ExecuteRow(db, s), k) <==> WritesMisfit(schema, db, s, k)
  {
    if Named(db, k) && db.names[k] == s.id {
      assert RowOf(ExecuteRow(db, s), k) == Touch(RowOf(db, k), s, db.now);
    }
  }

  lemma DeletedFits(schema: ApplyApi.Schema, db: Db, id: nat, k: Name)
    requires FitsAt(schema, db, k)
    ensures FitsAt(schema, Deleted(db, id), k)
  {
  }

  lemma UpsertFits(schema: ApplyApi.Schema, db: Db, a: Apply, k: Name)
    requires NamesOk(db) && Enabled(db, Upsert(a)) && Checked(schema, db, Upsert(a)) && FitsAt(schema, db, k)
    ensures FitsAt(schema, UpsertResource(db, a).0, k)
  {
    if k in db.names { assert db.names[k] in db.used; }
    if Exists(db, a) && k in db.names && db.names[k] == db.names[(a.kind, a.name)] { assert k == (a.kind, a.name); }
  }

  /**
    Over every run whose applies and flips were validated, a spec that fits its pinned version
    stops fitting by a statement if and only if a compose, a value flow or a rollback writes
    one that does not.
   */
  lemma PairingLostExactlyWhen(schema: ApplyApi.Schema, dbs: seq<Db>, ss: seq<Statement>, i: nat, k: Name)
    requires CheckedRun(schema, dbs, ss) && i < |ss| && FitsAt(schema, dbs[i], k)
    ensures !FitsAt(schema, dbs[i + 1], k) <==> WritesMisfit(schema, dbs[i], ss[i], k)
  {
    RunNames(dbs, ss, i);
    assert Executed(dbs[i], ss[i], dbs[i + 1]);
    FitStep(schema, dbs[i], ss[i], k);
  }

  /**
    In such a run a misfit was written by one of those statements and has stood since; where
    composed specs are valid in full, by a value flow or a rollback.
   */
  lemma {:induction false} MisfitSince(schema: ApplyApi.Schema, dbs: seq<Db>, ss: seq<Statement>, i: nat, k: Name) returns (m: nat)
    requires CheckedRun(schema, dbs, ss) && i < |dbs| && !FitsAt(schema, dbs[i], k)
    ensures m < i && WritesMisfit(schema, dbs[m], ss[m], k) && (ComposedInFull(schema, ss[m], k) ==> ss[m].ValueFlow? || ss[m].Rollback?)
    ensures forall n | m < n <= i :: !FitsAt(schema, dbs[n], k)
  {
    if FitsAt(schema, dbs[i - 1], k) {
      PairingLostExactlyWhen(schema, dbs, ss, i - 1, k);
      m := i - 1;
    } else if WritesMisfit(schema, dbs[i - 1], ss[i - 1], k) {
      m := i - 1;
    } else {
      m := MisfitSince(schema, dbs, ss, i - 1, k);
    }
  }

  // ---------------------------------------------------------------- what a rollback can bring back

  /** The statement moves a row to another version. */
  predicate MovesVersion(db: Db, s: Statement, id: nat) {
    (s.Flip? || s.UpdateChild?) && s.id == id && id in db.rows && Touch(db.rows[id], s, db.now).version != db.rows[id].version
  }

  /** Every spec in the resource's history fits the version it is pinned to. */
  ghost predicate HistoryFits(schema: ApplyApi.Schema, db: Db, k: Name) {
    Named(db, k) ==>
      forall e | e in HistoryOf(db, db.names[k]) :: ApplyApi.Fits(schema, k.0, RowOf(db, k).version, e.spec)
  }

  lemma HistoryFitsStep(schema: ApplyApi.Schema, db: Db, s: Statement, k: Name)
    requires NamesOk(db) && Inv(db) && Enabled(db, s) && Checked(schema, db, s) && HistoryFits(schema, db, k)
    requires Named(db, k) ==> !MovesVersion(db, s, db.names[k])
    ensures HistoryFits(schema, Execute(db, s), k)
  {
    if k in db.names { assert db.names[k] in db.used; }
    if OneRow(s) { TouchHistoryFits(schema, db, s, k); }
    else {
      match s
      case Upsert(a) => UpsertHistoryFits(schema, db, a, k);
      case InsertChild(id, _, _, _, _) => assert RowOk(db, id);
      case Rollback(_, _) =>
      case SweepRemove(id) => DeletedHistoryFits(schema, db, id, k);
      case Remove(id) => DeletedHistoryFits(schema, db, id, k);
      case Pass =>
    }
  }

  lemma TouchHistoryFits(schema: ApplyApi.Schema, db: Db, s: Statement, k: Name)
    requires OneRow(s) && HistoryFits(schema, db, k) && (Named(db, k) ==> !MovesVersion(db, s, db.names[k]))
    ensures HistoryFits(schema, ExecuteRow(db, s), k)
  {
    assert ExecuteRow(db, s).history == db.history;
    if Named(db, k) { assert RowOf(ExecuteRow(db, s), k).version == RowOf(db, k).version; }
  }

  lemma UpsertHistoryFits(schema: ApplyApi.Schema, db: Db, a: Apply, k: Name)
    requires NamesOk(db) && Inv(db) && Enabled(db, Upsert(a)) && Checked(schema, db, Upsert(a)) && HistoryFits(schema, db, k)
    ensures HistoryFits(schema, UpsertResource(db, a).0, k)
  {
    if k in db.names { assert db.names[k] in db.used; }
    if Exists(db, a) && k in db.names && db.names[k] == db.names[(a.kind, a.name)] { assert k == (a.kind, a.name); }
    assert RowOk(db, a.newId);
  }

  lemma DeletedHistoryFits(schema: ApplyApi.Schema, db: Db, id: nat, k: Name)
    requires HistoryFits(schema, db, k)
    ensures HistoryFits(schema, Deleted(db, id), k)
  {
  }

  /** The spec a rollback finds is one of the history. */
  lemma {:induction false} SpecAtIsEntry(h: seq<Entry>, generation: nat)
    ensures SpecAt(h, generation).Some? ==> exists e :: e in h && e.spec == SpecAt(h, generation).value
  {
    if h != [] {
      SpecAtIsEntry(h[..|h| - 1], generation);
      assert h[|h| - 1] in h && forall e | e in h[..|h| - 1] :: e in h;
    }
  }

  /** The version of no resource of that name was moved before i. */
  ghost predicate NeverMoved(dbs: seq<Db>, ss: seq<Statement>, i: nat, k: Name)
    requires Run(dbs, ss) && i < |dbs|
  {
    forall m | 0 <= m < i :: Named(dbs[m], k) ==> !MovesVersion(dbs[m], ss[m], dbs[m].names[k])
  }

  lemma {:induction false} HistoryFitsUnmoved(schema: ApplyApi.Schema, dbs: seq<Db>, ss: seq<Statement>, i: nat, k: Name)
    requires CheckedRun(schema, dbs, ss) && i < |dbs| && NeverMoved(dbs, ss, i, k)
    ensures HistoryFits(schema, dbs[i], k)
  {
    if i > 0 {
      HistoryFitsUnmoved(schema, dbs, ss, i - 1, k);
      RunNames(dbs, ss, i - 1);
      RunInv(dbs, ss, i - 1);
      assert Executed(dbs[i - 1], ss[i - 1], dbs[i]);
      HistoryFitsStep(schema, dbs[i - 1], ss[i - 1], k);
    }
  }

  /** A rollback can only write a misfit if a resource of that name was moved to another version before. */
  lemma RollbackNeedsMove(schema: ApplyApi.Schema, dbs: seq<Db>, ss: seq<Statement>, i: nat, k: Name)
    requires CheckedRun(schema, dbs, ss) && i < |ss| && ss[i].Rollback? && WritesMisfit(schema, dbs[i], ss[i], k)
    ensures !NeverMoved(dbs, ss, i, k)
  {
    if NeverMoved(dbs, ss, i, k) {
      HistoryFitsUnmoved(schema, dbs, ss, i, k);
      SpecAtIsEntry(HistoryOf(dbs[i], ss[i].id), ss[i].generation);
    }
  }

  /** A run of validated statements that ends with a version-1 spec on version 2: apply, flip, roll back. */
  lemma RollbackBreaksPairing() returns (schema: ApplyApi.Schema, dbs: seq<Db>, ss: seq<Statement>)
    ensures CheckedRun(schema, dbs, ss) && |ss| == 3 && ss[2] == Rollback(1, 1)
    ensures var k := (NETWORK.kind, NETWORK.name);
            FitsAt(schema, dbs[2], k) && !FitsAt(schema, dbs[3], k) && Named(dbs[3], k) && RowOf(dbs[3], k).version == 2
  {
    schema := ApplyApi.Schema({}, (kind, version, spec) => (version == 1) == (spec == "a"));
    var flip := Flip(1, 1, 2, "b");
    dbs := TwoStatements(Upsert(NETWORK), flip);
    assert HistoryOf(dbs[2], 1) == [Entry(1, "a")];
    assert SpecAt(HistoryOf(dbs[2], 1), 1) == Some("a");
    Extend(dbs, [Upsert(NETWORK), flip], Rollback(1, 1));
    dbs, ss := dbs + [Execute(dbs[2], Rollback(1, 1))], [Upsert(NETWORK), flip] + [Rollback(1, 1)];
  }
}
