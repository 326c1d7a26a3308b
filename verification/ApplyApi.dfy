/**
  Applying a manifest through the API: reactor kinds, schema validation, flip detection,
  the retirement gate, then either a version flip or an upsert. One apply is one atomic
  step over the resource tables; schemas are fixed, retirement may change between applies.
 */
module ApplyApi {
  import opened Wrappers
  import opened ResourceRows

  datatype Manifest = Manifest(kind: string, version: int, name: string, spec: string, labels: string, config: Option<string>)

  /** What one apply meets: a fresh id, and which of its reads and checks fail. */
  datatype Luck = Luck(newId: nat, resolveFails: bool, configReadFails: bool, storeRejects: bool)

  datatype Outcome = Invalid(reason: string) | Failed | CreatedNew(id: nat) | Configured(id: nat) | Unchanged(id: nat)

  /** The kinds that own no resources, and which spec fits which (kind, version). */
  datatype Schema = Schema(reactors: set<string>, fits: (string, int, string) -> bool)

  predicate Fits(schema: Schema, kind: string, version: int, spec: string) {
    schema.fits(kind, version, spec)
  }

  function AsApply(m: Manifest, newId: nat): Apply {
    Apply(m.kind, m.name, m.spec, m.config, newId, m.version, m.labels)
  }

  predicate Found(db: Db, m: Manifest) {
    (m.kind, m.name) in db.names && db.names[(m.kind, m.name)] in db.rows
  }

  function Pinned(db: Db, m: Manifest): int
    requires Found(db, m)
  {
    db.rows[db.names[(m.kind, m.name)]].version
  }

  /** The apply would put a resource onto its version: a create, or a flip. */
  predicate MovesOnto(db: Db, m: Manifest) {
    !Found(db, m) || Pinned(db, m) != m.version
  }

  /** The gate fails open: an unreadable config does not block. */
  predicate Blocked(retired: set<(string, int)>, m: Manifest, luck: Luck) {
    !luck.configReadFails && (m.kind, m.version) in retired
  }

  function FlipOf(db: Db, m: Manifest): Statement
    requires Found(db, m)
  {
    Flip(db.names[(m.kind, m.name)], Pinned(db, m), m.version, m.spec)
  }

  function ApplyManifest(schema: Schema, retired: set<(string, int)>, db: Db, m: Manifest, luck: Luck): (Db, Outcome) {
    if m.kind in schema.reactors then (db, Invalid("reactor"))
    else if m.version < 1 then (db, Invalid("version"))
    else if !Fits(schema, m.kind, m.version, m.spec) then (db, Invalid("schema"))
    else if luck.resolveFails then (db, Failed)
    else if MovesOnto(db, m) && Blocked(retired, m, luck) then (db, Invalid("retired"))
    else if Found(db, m) && Pinned(db, m) != m.version then
      (ExecuteRow(db, FlipOf(db, m)), Configured(db.names[(m.kind, m.name)]))
    else if luck.storeRejects then (db, Invalid("store"))
    else
      var (db', r) := UpsertResource(db, AsApply(m, luck.newId));
      (db', if r.created then CreatedNew(r.id) else if r.changed then Configured(r.id) else Unchanged(r.id))
  }

  /** The handler over its tables, return by return. */
  class Server {
    const schema: Schema
    var db: Db

    constructor (schema: Schema)
      ensures this.schema == schema && db == Initial()
    {
      this.schema := schema;
      db := Initial();
    }

    method ApplyResourceManifest(m: Manifest, retired: set<(string, int)>, luck: Luck) returns (o: Outcome)
      modifies this
      ensures (db, o) == ApplyManifest(schema, retired, old(db), m, luck)
    {
      if m.kind in schema.reactors { return Invalid("reactor"); }
      if m.version < 1 { return Invalid("version"); }
      if !Fits(schema, m.kind, m.version, m.spec) { return Invalid("schema"); }
      if luck.resolveFails { return Failed; }
      var found := Found(db, m);
      var current := if found then Pinned(db, m) else 0;
      var isCreate, isFlip := !found, found && current != m.version;
      if isCreate || isFlip {
        var cerr := luck.configReadFails;
        var isRetired := !cerr && (m.kind, m.version) in retired;
        if !cerr && isRetired { return Invalid("retired"); }
      }
      if isFlip {
        var id := db.names[(m.kind, m.name)];
        db := ExecuteRow(db, Flip(id, current, m.version, m.spec));
        return Configured(id);
      }
      if luck.storeRejects { return Invalid("store"); }
      var (db', r) := UpsertResource(db, AsApply(m, luck.newId));
      db := db';
      if r.created { return CreatedNew(r.id); }
      if r.changed { return Configured(r.id); }
      return Unchanged(r.id);
    }
  }

  // ---------------------------------------------------------------- version and spec stay paired

  /** Two names never share a row, and every named row's spec fits the version it is pinned to. */
  ghost predicate Paired(schema: Schema, db: Db) {
    && (forall k, k' | k in db.names && k' in db.names && db.names[k] == db.names[k'] :: k == k')
    && (forall k | k in db.names :: db.names[k] in db.used)
    && (forall k | k in db.names && db.names[k] in db.rows ::
          Fits(schema, k.0, db.rows[db.names[k]].version, db.rows[db.names[k]].spec))
  }

  lemma FlipKeepsPaired(schema: Schema, db: Db, kind: string, name: string, from: int, to: int, spec: string)
    requires Paired(schema, db) && (kind, name) in db.names && Fits(schema, kind, to, spec)
    ensures Paired(schema, ExecuteRow(db, Flip(db.names[(kind, name)], from, to, spec)))
  {
    var id := db.names[(kind, name)];
    var db' := ExecuteRow(db, Flip(id, from, to, spec));
    forall k | k in db'.names && db'.names[k] in db'.rows
      ensures Fits(schema, k.0, db'.rows[db'.names[k]].version, db'.rows[db'.names[k]].spec)
    {
      if db.names[k] == id { assert k == (kind, name); }
    }
  }

  lemma UpsertKeepsPaired(schema: Schema, db: Db, a: Apply)
    requires Paired(schema, db) && Fits(schema, a.kind, a.version, a.spec) && a.newId !in db.used
    requires Exists(db, a) ==> db.rows[db.names[(a.kind, a.name)]].version == a.version
    ensures Paired(schema, UpsertResource(db, a).0)
  {
    var db' := UpsertResource(db, a).0;
    forall k | k in db'.names ensures db'.names[k] in db'.used { if k in db.names { assert db.names[k] in db.used; } }
    forall k | k in db'.names && db'.names[k] in db'.rows
      ensures Fits(schema, k.0, db'.rows[db'.names[k]].version, db'.rows[db'.names[k]].spec)
    {
      if k in db.names { assert db.names[k] in db.used; }
      if Exists(db, a) && db.names[k] == db.names[(a.kind, a.name)] { assert k == (a.kind, a.name); }
    }
  }

  /** Every apply keeps every row's spec valid for its pinned version, whichever way it is routed. */
  lemma ApplyKeepsPaired(schema: Schema, retired: set<(string, int)>, db: Db, m: Manifest, luck: Luck)
    requires Paired(schema, db) && luck.newId !in db.used
    ensures Paired(schema, ApplyManifest(schema, retired, db, m, luck).0)
  {
    if Fits(schema, m.kind, m.version, m.spec) {
      if Found(db, m) && Pinned(db, m) != m.version {
        FlipKeepsPaired(schema, db, m.kind, m.name, Pinned(db, m), m.version, m.spec);
      } else {
        UpsertKeepsPaired(schema, db, AsApply(m, luck.newId));
      }
    }
  }

  datatype Request = Request(manifest: Manifest, retired: set<(string, int)>, luck: Luck)

  ghost predicate Run(schema: Schema, dbs: seq<Db>, rs: seq<Request>) {
    && |dbs| == |rs| + 1 && dbs[0] == Initial()
    && (forall i | 0 <= i < |rs| :: Served(schema, dbs[i], rs[i], dbs[i + 1]))
  }

  ghost predicate Served(schema: Schema, db: Db, r: Request, db': Db) {
    r.luck.newId !in db.used && db' == ApplyManifest(schema, r.retired, db, r.manifest, r.luck).0
  }

  /** Over every serial run of applies, every resource's spec fits the version it is pinned to. */
  lemma {:induction false} SpecFitsVersion(schema: Schema, dbs: seq<Db>, rs: seq<Request>, i: nat)
    requires Run(schema, dbs, rs) && i < |dbs|
    ensures Paired(schema, dbs[i])
  {
    if i > 0 {
      SpecFitsVersion(schema, dbs, rs, i - 1);
      assert Served(schema, dbs[i - 1], rs[i - 1], dbs[i]);
      ApplyKeepsPaired(schema, rs[i - 1].retired, dbs[i - 1], rs[i - 1].manifest, rs[i - 1].luck);
    }
  }

  // ---------------------------------------------------------------- retirement

  ghost predicate OnVersion(db: Db, kind: string, name: string, version: int) {
    (kind, name) in db.names && db.names[(kind, name)] in db.rows && db.rows[db.names[(kind, name)]].version == version
  }

  /**
    An apply puts a resource onto a retired version exactly when it would move there, every
    check before the gate passes, the config read fails, and the write itself goes through.
   */
  lemma RetiredGrowsExactlyWhen(schema: Schema, retired: set<(string, int)>, db: Db, m: Manifest, luck: Luck, kind: string, name: string, version: int)
    requires Paired(schema, db) && luck.newId !in db.used && (kind, version) in retired && !OnVersion(db, kind, name, version)
    ensures OnVersion(ApplyManifest(schema, retired, db, m, luck).0, kind, name, version) <==>
              && m.kind == kind && m.name == name && m.version == version
              && m.kind !in schema.reactors && m.version >= 1 && Fits(schema, kind, version, m.spec)
              && !luck.resolveFails && luck.configReadFails
              && (if Found(db, m) then var row := db.rows[db.names[(kind, name)]]; !row.deleting && row.freeze == Live
                  else !luck.storeRejects)
  {
  }

  lemma RetiredStep(schema: Schema, db: Db, r: Request, db': Db, kind: string, name: string, version: int)
    requires Paired(schema, db) && Served(schema, db, r, db') && (kind, version) in r.retired && !r.luck.configReadFails
    ensures OnVersion(db', kind, name, version) ==> OnVersion(db, kind, name, version)
  {
    if !OnVersion(db, kind, name, version) {
      RetiredGrowsExactlyWhen(schema, r.retired, db, r.manifest, r.luck, kind, name, version);
    }
  }

  lemma RetiredStepOfRun(schema: Schema, dbs: seq<Db>, rs: seq<Request>, k: nat, kind: string, name: string, version: int)
    requires Run(schema, dbs, rs) && k < |rs| && (kind, version) in rs[k].retired && !rs[k].luck.configReadFails
    ensures OnVersion(dbs[k + 1], kind, name, version) ==> OnVersion(dbs[k], kind, name, version)
  {
    SpecFitsVersion(schema, dbs, rs, k);
    assert Served(schema, dbs[k], rs[k], dbs[k + 1]);
    RetiredStep(schema, dbs[k], rs[k], dbs[k + 1], kind, name, version);
  }

  /** While a version is retired and config reads succeed, no run of applies pins another resource to it. */
  lemma RetiredNeverGrows(schema: Schema, dbs: seq<Db>, rs: seq<Request>, i: nat, j: nat, kind: string, name: string, version: int)
    requires Run(schema, dbs, rs) && i <= j < |dbs| && OnVersion(dbs[j], kind, name, version)
    requires forall k | i <= k < j :: (kind, version) in rs[k].retired && !rs[k].luck.configReadFails
    ensures OnVersion(dbs[i], kind, name, version)
  {
    var k := j;
    while k > i
      invariant i <= k <= j && OnVersion(dbs[k], kind, name, version)
    {
      RetiredStepOfRun(schema, dbs, rs, k - 1, kind, name, version);
      k := k - 1;
    }
  }

  /** The gate fails open: with an unreadable config the first apply of a run creates on a retired version. */
  lemma GateFailsOpen(kind: string, version: int) returns (schema: Schema, m: Manifest, luck: Luck)
    requires version >= 1
    ensures OnVersion(ApplyManifest(schema, {(kind, version)}, Initial(), m, luck).0, m.kind, m.name, version)
    ensures luck.configReadFails && m.kind == kind && m.version == version
  {
    schema := Schema({}, (k, v, sp) => true);
    m := Manifest(kind, version, "name", "spec", "", None);
    luck := Luck(0, false, true, false);
  }

  // ---------------------------------------------------------------- applying twice

  predicate Lucky(luck: Luck) {
    !luck.resolveFails && !luck.configReadFails && !luck.storeRejects
  }

  lemma UpsertSettles(db: Db, m: Manifest, newId: nat, newId2: nat)
    requires newId !in db.used && (Found(db, m) ==> Pinned(db, m) == m.version)
    ensures var db1 := UpsertResource(db, AsApply(m, newId)).0;
            Found(db1, m) && Pinned(db1, m) == m.version && UpsertResource(db1, AsApply(m, newId2)).0 == db1
  {
  }

  /** Repeating an apply that did not flip is the identity. */
  lemma RepeatedUpsertIsIdentity(schema: Schema, retired: set<(string, int)>, db: Db, m: Manifest, luck: Luck, luck2: Luck)
    requires Lucky(luck) && Lucky(luck2) && luck.newId !in db.used && (Found(db, m) ==> Pinned(db, m) == m.version)
    ensures var db1 := ApplyManifest(schema, retired, db, m, luck).0;
            ApplyManifest(schema, retired, db1, m, luck2).0 == db1
  {
    UpsertSettles(db, m, luck.newId, luck2.newId);
  }

  /**
    A flip ignores the manifest's labels and config reference. So repeating an apply that
    flipped is a no-op exactly when the row already carried that config and those labels.
   */
  lemma RepeatedFlipIsIdentityExactlyWhen(schema: Schema, retired: set<(string, int)>, db: Db, m: Manifest, luck: Luck)
    requires Lucky(luck) && Found(db, m) && Pinned(db, m) != m.version
    requires ApplyManifest(schema, retired, db, m, luck).0 != db
    ensures var db1 := ApplyManifest(schema, retired, db, m, luck).0;
            var id := db.names[(m.kind, m.name)];
            ApplyManifest(schema, retired, db1, m, luck).0 == db1 <==>
              db.rows[id].config == m.config && id in db.labels && db.labels[id] == m.labels
  {
  }

  /** A reachable flip whose repetition is not a no-op: the first apply dropped the new labels. */
  lemma RepeatedFlipCanChange() returns (schema: Schema, dbs: seq<Db>, rs: seq<Request>)
    ensures Run(schema, dbs, rs) && |rs| == 3 && rs[1].manifest == rs[2].manifest && dbs[2] != dbs[1] && dbs[3] != dbs[2]
    ensures OnVersion(dbs[1], "vpc", "net", 1) && OnVersion(dbs[2], "vpc", "net", 2)
  {
    schema := Schema({}, (k, v, sp) => true);
    var first := Manifest("vpc", 1, "net", "a", "", None);
    var flip := Manifest("vpc", 2, "net", "a", "team", None);
    rs := [Request(first, {}, Luck(1, false, false, false)), Request(flip, {}, Luck(2, false, false, false)),
           Request(flip, {}, Luck(3, false, false, false))];
    var db1 := ApplyManifest(schema, {}, Initial(), first, rs[0].luck).0;
    assert db1.rows == map[1 := Row(1, "a", None, 1, Live, false)] && db1.names == map[("vpc", "net") := 1] && db1.labels == map[1 := ""];
    var db2 := ApplyManifest(schema, {}, db1, flip, rs[1].luck).0;
    assert db2 == db1.(rows := map[1 := Row(2, "a", None, 2, Live, false)]);
    var db3 := ApplyManifest(schema, {}, db2, flip, rs[2].luck).0;
    assert db3.labels[1] == "team";
    dbs := [Initial(), db1, db2, db3];
    assert Served(schema, dbs[0], rs[0], dbs[1]) && Served(schema, dbs[1], rs[1], dbs[2]) && Served(schema, dbs[2], rs[2], dbs[3]);
  }
}
