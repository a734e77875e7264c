/** `POST /api/system/license` (server/src/index.ts:994-1065): the key is
    required, must start with `CBSD-`, and its tier is chosen by substring,
    `ENT` before `STD` before the trial tier. The accepted key is written to
    the `license` table, which the schema of server/src/db.ts does not
    create. */
module License {
  import opened Text
  import opened Records
  import opened Auth
  import opened Db

  /** The columns the handler writes for a tier. */
  datatype Tier = Tier(
    kind: string, nodes: nat, vms: nat, containers: nat, jails: nat,
    support: string, features: seq<string>)

  /** The features every tier has, in this order. */
  const BaseFeatures: seq<string> := ["clustering", "api_access", "live_migration"]

  const Trial: Tier := Tier("trial", 5, 20, 100, 50, "community", BaseFeatures)
  const Standard: Tier := Tier("standard", 25, 100, 500, 200, "business", BaseFeatures + ["advanced_backup"])
  const Enterprise: Tier := Tier("enterprise", 99999, 99999, 99999, 99999, "24/7",
    BaseFeatures + ["high_availability", "advanced_backup", "dedicated_support"])

  /** The tier a well-formed key selects. */
  function Classify(key: string): (t: Tier)
    ensures t == Trial || t == Standard || t == Enterprise
    ensures |t.features| >= 3 && t.features[..3] == BaseFeatures
  {
    if Contains(key, "ENT") then Enterprise
    else if Contains(key, "STD") then Standard
    else Trial
  }

  /** `ENT` wins over `STD`, which wins over the trial tier. */
  lemma ClassifyPrecedence(key: string)
    ensures Contains(key, "ENT") <==> Classify(key).kind == "enterprise"
    ensures Classify(key).kind == "standard" <==> !Contains(key, "ENT") && Contains(key, "STD")
    ensures Classify(key).kind == "trial" <==> !Contains(key, "ENT") && !Contains(key, "STD")
  {
  }

  /** A key with `ENT` anywhere is enterprise, with 99999 of everything and
      round-the-clock support, whatever else it holds. */
  lemma EnterpriseKey(a: string, b: string)
    ensures var t := Classify("CBSD-" + a + "ENT" + b);
      t.kind == "enterprise" && t.nodes == t.vms == t.containers == t.jails == 99999 && t.support == "24/7"
  {
    ContainsInfix("CBSD-" + a, "ENT", b);
    assert "CBSD-" + a + "ENT" + b == ("CBSD-" + a) + "ENT" + b;
  }

  /** A key with `STD` and no `ENT` is standard: 25 nodes, 100 VMs, 500
      containers and 200 jails. */
  lemma StandardKey(a: string, b: string)
    requires !Contains("CBSD-" + a + "STD" + b, "ENT")
    ensures Classify("CBSD-" + a + "STD" + b) == Standard
  {
    ContainsInfix("CBSD-" + a, "STD", b);
    assert "CBSD-" + a + "STD" + b == ("CBSD-" + a) + "STD" + b;
  }

  /** Every limit grows from trial to standard to enterprise. */
  lemma TiersOrdered()
    ensures Trial.nodes <= Standard.nodes <= Enterprise.nodes
    ensures Trial.vms <= Standard.vms <= Enterprise.vms
    ensures Trial.containers <= Standard.containers <= Enterprise.containers
    ensures Trial.jails <= Standard.jails <= Enterprise.jails
    ensures Trial.features <= Standard.features && BaseFeatures <= Enterprise.features
    ensures forall f :: f in Standard.features ==> f in Enterprise.features
  {
  }

  /** How the body's `license_key` is judged before anything is written. */
  datatype KeyCheck = MissingKey | BadFormat | WellFormed(tier: Tier)

  function CheckKey(key: Option<string>): (r: KeyCheck)
    ensures r.MissingKey? <==> key.None? || key.value == ""
    ensures r.WellFormed? <==> key.Some? && StartsWith(key.value, "CBSD-")
    ensures r.WellFormed? ==> r.tier == Classify(key.value)
  {
    if key.None? || key.value == "" then MissingKey
    else if StartsWith(key.value, "CBSD-") then WellFormed(Classify(key.value))
    else BadFormat
  }

  /** What the client gets. */
  datatype LicenseReply =
    | Refused(code: int, message: string)
    | ServerError          // the `UPDATE` throws outside any `try`: 500
    | Registered(tier: Tier)

  /** The `license` singleton's columns: `id`, which the `WHERE` reads, and
      every column the `UPDATE` of index.ts:1037-1048 sets. */
  const LicenseColumns: seq<Column> := [
    Column("id", "INTEGER"), Column("license_key", "TEXT"), Column("license_type", "TEXT"),
    Column("status", "TEXT"), Column("nodes_limit", "INTEGER"), Column("vms_limit", "INTEGER"),
    Column("containers_limit", "INTEGER"), Column("jails_limit", "INTEGER"),
    Column("expiry_date", "DATETIME"), Column("support_tier", "TEXT"),
    Column("registered_to", "TEXT"), Column("features", "TEXT"), Column("updated_at", "DATETIME")]

  /** `UPDATE license` prepares only when the table exists and has every
      column the statement names. */
  predicate LicenseReady(tables: Schema) {
    "license" in tables &&
    forall i :: 0 <= i < |LicenseColumns| ==> HasColumn(tables["license"], LicenseColumns[i].name)
  }

  /** The handler's answer on a database with the given tables: a
      well-formed key reaches `UPDATE license`, which throws when that table
      does not exist or lacks a column it writes. */
  function LicenseOutcome(tables: Schema, key: Option<string>): (r: LicenseReply)
    ensures r.Refused? <==> !CheckKey(key).WellFormed?
    ensures r.Refused? ==> r.code == 400
    ensures r.Registered? <==> CheckKey(key).WellFormed? && LicenseReady(tables)
    ensures r.Registered? ==> r.tier == Classify(key.value)
  {
    match CheckKey(key)
    case MissingKey => Refused(400, "License key is required")
    case BadFormat => Refused(400, "Invalid license key format")
    case WellFormed(t) => if LicenseReady(tables) then Registered(t) else ServerError
  }

  /** `POST /api/system/license`: one `LICENSE_UPDATE` audit row when the key
      is registered, none otherwise. */
  method RegisterLicense(db: Database, actor: Principal, key: Option<string>) returns (reply: LicenseReply)
    modifies db`logs
    ensures reply == LicenseOutcome(db.tables, key)
    ensures reply.Registered? ==>
      db.logs == old(db.logs) + [LogEntry(Some(actor.id), "LICENSE_UPDATE", Some("Updated license to " + reply.tier.kind))]
    ensures !reply.Registered? ==> db.logs == old(db.logs)
  {
    reply := LicenseOutcome(db.tables, key);
    if reply.Registered? {
      db.Log(Some(actor.id), "LICENSE_UPDATE", Some("Updated license to " + reply.tier.kind));
    }
  }

  /** The migrations never create a `license` table. */
  lemma MigrationAddsNoLicense(tables: Schema)
    requires "license" !in tables
    ensures "license" !in MigrateSchema(tables)
  {
    CreateTablesFacts(tables);
  }

  /** As written, on a database `initDb` created, every well-formed key is
      answered 500 and nothing is registered or logged; `CBSD-ENT-1` is one. */
  lemma FreshDatabaseCannotRegister(tables: Schema, key: Option<string>)
    requires "license" !in tables
    requires CheckKey(key).WellFormed?
    ensures LicenseOutcome(MigrateSchema(tables), key) == ServerError
  {
    MigrationAddsNoLicense(tables);
  }

  /** The migration with the `license` table the handler relies on. */
  function MigrateWithLicense(tables: Schema): (r: Schema)
    ensures Migrated(r) && LicenseReady(r)
    ensures forall t :: t in tables ==> t in r
  {
    var m := MigrateSchema(tables);
    if LicenseReady(m) then m
    else
      var r := m["license" := LicenseColumns];
      forall i | 0 <= i < |LicenseColumns| ensures HasColumn(r["license"], LicenseColumns[i].name) {
        assert r["license"][i] == LicenseColumns[i];
      }
      r
  }

  /** With that table every well-formed key is registered with its tier,
      and migrating twice adds nothing. */
  lemma MigrateWithLicenseRegisters(tables: Schema, key: Option<string>)
    ensures CheckKey(key).WellFormed? ==>
      LicenseOutcome(MigrateWithLicense(tables), key) == Registered(Classify(key.value))
    ensures MigrateWithLicense(MigrateWithLicense(tables)) == MigrateWithLicense(tables)
  {
    MigratedFixpoint(MigrateWithLicense(tables));
  }
}
