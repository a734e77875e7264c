/** The data-access layer of server/src/db.ts: the database with its schema and
    tables, `logAction`, and `initDb`, which opens the database once per
    process, creates missing tables, adds missing columns and seeds what is
    missing. SQL statements are modelled by their effect on the tables;
    `INSERT` takes the next autoincrement id. */
module Db {
  import opened Text
  import opened Sequences
  import opened Records

  /** A column as `PRAGMA table_info` lists it. */
  datatype Column = Column(name: string, sqlType: string)

  /** The tables that exist, each with its columns in order. */
  type Schema = map<string, seq<Column>>

  const TableNames: seq<string> := ["users", "permissions", "logs", "resources", "nodes"]

  /** The columns of each `CREATE TABLE IF NOT EXISTS` of db.ts:31-85. */
  function DeclaredColumns(table: string): seq<Column> {
    if table == "users" then
      [Column("id", "INTEGER"), Column("username", "TEXT"), Column("password", "TEXT"), Column("role", "TEXT")]
    else if table == "permissions" then
      [Column("id", "INTEGER"), Column("user_id", "INTEGER"), Column("resource", "TEXT"), Column("action", "TEXT")]
    else if table == "logs" then
      [Column("id", "INTEGER"), Column("timestamp", "DATETIME"), Column("user_id", "INTEGER"),
       Column("action", "TEXT"), Column("details", "TEXT")]
    else if table == "resources" then
      [Column("id", "INTEGER"), Column("type", "TEXT"), Column("name", "TEXT"), Column("status", "TEXT"),
       Column("image", "TEXT"), Column("ip", "TEXT"), Column("cpu", "INTEGER"), Column("memory", "TEXT"),
       Column("disk", "TEXT"), Column("node_id", "INTEGER"), Column("created_at", "DATETIME")]
    else if table == "nodes" then
      [Column("id", "INTEGER"), Column("name", "TEXT"), Column("role", "TEXT"), Column("status", "TEXT"),
       Column("ip", "TEXT"), Column("cpu_total", "INTEGER"), Column("cpu_used", "INTEGER"),
       Column("mem_total", "TEXT"), Column("mem_used", "TEXT"), Column("disk_total", "TEXT"),
       Column("disk_used", "TEXT"), Column("created_at", "DATETIME")]
    else []
  }

  /** One `CREATE TABLE IF NOT EXISTS`. */
  function CreateIfAbsent(tables: Schema, name: string): Schema {
    if name in tables then tables else tables[name := DeclaredColumns(name)]
  }

  /** The `CREATE TABLE IF NOT EXISTS` script of db.ts:31-85: tables that
      exist are kept as they are, missing ones get their declared columns. */
  function CreateTables(tables: Schema): (r: Schema)
    ensures "resources" in r && "nodes" in r
    ensures (forall t :: t in TableNames ==> t in tables) ==> r == tables
  {
    CreateIfAbsent(CreateIfAbsent(CreateIfAbsent(CreateIfAbsent(CreateIfAbsent(
      tables, "users"), "permissions"), "logs"), "resources"), "nodes")
  }

  /** Tables that exist keep their columns; every table exists afterwards,
      and the ones that did not get their declared columns. */
  lemma CreateTablesFacts(tables: Schema)
    ensures forall t :: t in tables ==> t in CreateTables(tables) && CreateTables(tables)[t] == tables[t]
    ensures forall t :: t in TableNames ==> t in CreateTables(tables)
    ensures forall t :: t in CreateTables(tables) && t !in tables ==>
      t in TableNames && CreateTables(tables)[t] == DeclaredColumns(t)
  {
  }

  predicate HasColumn(cols: seq<Column>, name: string) {
    exists i :: 0 <= i < |cols| && cols[i].name == name
  }

  lemma HasColumnAppend(cols: seq<Column>, extra: seq<Column>, name: string)
    ensures HasColumn(cols, name) ==> HasColumn(cols + extra, name)
    ensures (exists i :: 0 <= i < |extra| && extra[i].name == name) ==> HasColumn(cols + extra, name)
  {
    if HasColumn(cols, name) {
      var i :| 0 <= i < |cols| && cols[i].name == name;
      assert (cols + extra)[i] == cols[i];
    }
    if exists i :: 0 <= i < |extra| && extra[i].name == name {
      var i :| 0 <= i < |extra| && extra[i].name == name;
      assert (cols + extra)[|cols| + i] == extra[i];
    }
  }

  /** The metric columns newer versions added to `nodes` (db.ts:109). */
  const MetricColumns: seq<string> := ["cpu_total", "cpu_used", "mem_total", "mem_used", "disk_total", "disk_used"]

  /** The type an added metric column gets. */
  function MetricType(col: string): string {
    if StartsWith(col, "cpu") then "INTEGER" else "TEXT"
  }

  /** The `ALTER TABLE nodes ADD COLUMN` statements the loop of db.ts:110-119
      runs, given the columns `info` listed before the loop. */
  function MissingColumns(info: seq<Column>, wanted: seq<string>): (r: seq<Column>)
    ensures forall i :: 0 <= i < |r| ==>
      !HasColumn(info, r[i].name) && r[i].sqlType == MetricType(r[i].name) && r[i].name in wanted
    ensures forall c :: c in wanted ==> HasColumn(info + r, c)
    ensures |r| <= |wanted|
    decreases |wanted|
  {
    if wanted == [] then []
    else
      var front := MissingColumns(info, wanted[..|wanted| - 1]);
      var col := wanted[|wanted| - 1];
      var r := front + (if HasColumn(info, col) then [] else [Column(col, MetricType(col))]);
      forall c | c in wanted ensures HasColumn(info + r, c) {
        if c in wanted[..|wanted| - 1] {
          HasColumnAppend(info + front, r[|front|..], c);
          assert info + front + r[|front|..] == info + r;
        } else {
          assert c == col;
          if HasColumn(info, col) {
            HasColumnAppend(info, r, c);
          } else {
            assert (info + r)[|info| + |front|].name == col;
          }
        }
      }
      r
  }

  /** Nothing is added when every wanted column is already there. */
  lemma {:induction false} MissingColumnsNone(info: seq<Column>, wanted: seq<string>)
    requires forall c :: c in wanted ==> HasColumn(info, c)
    ensures MissingColumns(info, wanted) == []
    decreases |wanted|
  {
    if wanted != [] {
      assert forall c :: c in wanted[..|wanted| - 1] ==> c in wanted;
      MissingColumnsNone(info, wanted[..|wanted| - 1]);
      assert wanted[|wanted| - 1] in wanted;
    }
  }

  /** The two `resources` migrations of db.ts:88-105. */
  function ResourceMigrations(info: seq<Column>): (r: seq<Column>)
    ensures HasColumn(info + r, "node_id") && HasColumn(info + r, "disk")
  {
    var r := (if HasColumn(info, "node_id") then [] else [Column("node_id", "INTEGER")])
      + (if HasColumn(info, "disk") then [] else [Column("disk", "TEXT")]);
    HasColumnAppend(info, r, "node_id");
    HasColumnAppend(info, r, "disk");
    assert !HasColumn(info, "node_id") ==> r[0].name == "node_id";
    assert !HasColumn(info, "disk") ==> r[|r| - 1].name == "disk";
    r
  }

  /** Every table exists and has every column the migrations add. */
  predicate Migrated(tables: Schema) {
    && (forall t :: t in TableNames ==> t in tables)
    && "nodes" in tables && "resources" in tables
    && (forall c :: c in MetricColumns ==> HasColumn(tables["nodes"], c))
    && HasColumn(tables["resources"], "node_id") && HasColumn(tables["resources"], "disk")
  }

  /** db.ts:88-105 applied to the schema. */
  function MigrateResources(tables: Schema): (r: Schema)
    requires "resources" in tables
    ensures r.Keys == tables.Keys
    ensures HasColumn(r["resources"], "node_id") && HasColumn(r["resources"], "disk")
    ensures forall t :: t in tables && t != "resources" ==> r[t] == tables[t]
    ensures HasColumn(tables["resources"], "node_id") && HasColumn(tables["resources"], "disk") ==> r == tables
  {
    var cols := tables["resources"];
    var extra := ResourceMigrations(cols);
    assert HasColumn(cols, "node_id") && HasColumn(cols, "disk") ==> cols + extra == cols;
    tables["resources" := cols + extra]
  }

  /** db.ts:107-119 applied to the schema. */
  function MigrateNodes(tables: Schema): (r: Schema)
    requires "nodes" in tables
    ensures r.Keys == tables.Keys
    ensures forall c :: c in MetricColumns ==> HasColumn(r["nodes"], c)
    ensures forall t :: t in tables && t != "nodes" ==> r[t] == tables[t]
    ensures (forall c :: c in MetricColumns ==> HasColumn(tables["nodes"], c)) ==> r == tables
  {
    var cols := tables["nodes"];
    var extra := MissingColumns(cols, MetricColumns);
    if forall c :: c in MetricColumns ==> HasColumn(cols, c) then
      MissingColumnsNone(cols, MetricColumns);
      assert cols + extra == cols;
      tables
    else
      tables["nodes" := cols + extra]
  }

  /** Table creation followed by the column migrations. */
  function MigrateSchema(tables: Schema): (r: Schema)
    ensures Migrated(r)
    ensures forall t :: t in tables ==> t in r
  {
    MigrateNodes(MigrateResources(CreateTables(tables)))
  }

  /** A migrated schema is left as it is. */
  lemma MigratedFixpoint(tables: Schema)
    requires Migrated(tables)
    ensures MigrateSchema(tables) == tables
  {
    assert CreateTables(tables) == tables;
  }

  /** Migrating a migrated schema changes nothing: a second start of the
      server adds no table and no column. */
  lemma MigrateSchemaIdempotent(tables: Schema)
    ensures MigrateSchema(MigrateSchema(tables)) == MigrateSchema(tables)
  {
    MigratedFixpoint(MigrateSchema(tables));
  }

  /** The default main node of db.ts:124-125. */
  const MainSeed: Node := Node(0, "CloudBSD Main", "main", "online", Some("127.0.0.1"),
    Some(8), Some(2), Some("32GB"), Some("8GB"), Some("500GB"), Some("120GB"))

  /** The demo workers of db.ts:142-146. */
  const WorkerSeeds: seq<Node> := [
    Node(0, "bsd-worker-01", "worker", "online", Some("192.168.1.50"), Some(16), Some(4), Some("64GB"), Some("12GB"), Some("1TB"), Some("200GB")),
    Node(0, "bsd-worker-02", "worker", "online", Some("192.168.1.51"), Some(4), Some(1), Some("8GB"), Some("2GB"), Some("250GB"), Some("50GB")),
    Node(0, "bsd-worker-03", "worker", "offline", Some("192.168.1.52"), Some(8), Some(0), Some("16GB"), Some("0GB"), Some("500GB"), Some("0GB"))
  ]

  /** `SELECT id FROM nodes WHERE role = ?` with `.get()`: the first such row. */
  function FirstWithRole(ns: seq<Node>, role: string): (r: Option<nat>)
    ensures r.Some? ==> r.value < |ns| && ns[r.value].role == role
    ensures r.Some? ==> forall j :: 0 <= j < r.value ==> ns[j].role != role
    ensures r.None? ==> forall j :: 0 <= j < |ns| ==> ns[j].role != role
    decreases |ns|
  {
    if ns == [] then None
    else if ns[0].role == role then Some(0)
    else match FirstWithRole(ns[1..], role)
      case None => None
      case Some(k) => Some(k + 1)
  }

  /** `SELECT id FROM nodes WHERE name = ?` with `.get()`. */
  function IdByName(ns: seq<Node>, name: string): (r: Option<nat>)
    ensures r.Some? ==> exists i :: 0 <= i < |ns| && ns[i].name == name && ns[i].id == r.value
    ensures r.None? ==> forall i :: 0 <= i < |ns| ==> ns[i].name != name
    decreases |ns|
  {
    if ns == [] then None
    else if ns[0].name == name then Some(ns[0].id)
    else
      var r := IdByName(ns[1..], name);
      assert forall i :: 1 <= i < |ns| ==> ns[i] == ns[1..][i - 1];
      r
  }

  predicate NameTaken(ns: seq<Node>, name: string) {
    exists i :: 0 <= i < |ns| && ns[i].name == name
  }

  /** The result of a run of node inserts: whether all succeeded, the table,
      and the next autoincrement id. */
  datatype Inserted = Inserted(ok: bool, nodes: seq<Node>, next: nat)

  /** The insert loop advances the counter by the rows it added, and it
      succeeds exactly when it added every row. */
  lemma {:induction false} InsertNodesCounts(ns: seq<Node>, next: nat, rows: seq<Node>)
    ensures var r := InsertNodes(ns, next, rows);
      r.next == next + |r.nodes| - |ns| && |r.nodes| <= |ns| + |rows| && (r.ok <==> |r.nodes| == |ns| + |rows|)
    decreases |rows|
  {
    if rows != [] && !NameTaken(ns, rows[0].name) {
      InsertNodesCounts(ns + [rows[0].(id := next)], next + 1, rows[1..]);
    }
  }

  /** Rows given consecutive ids from `next` on. */
  function NumberNodes(rows: seq<Node>, next: nat): (r: seq<Node>)
    ensures |r| == |rows|
    decreases |rows|
  {
    if rows == [] then [] else [rows[0].(id := next)] + NumberNodes(rows[1..], next + 1)
  }

  /** The `i`-th numbered row is the `i`-th row with id `next + i`. */
  lemma {:induction false} NumberNodesAt(rows: seq<Node>, next: nat)
    ensures forall i :: 0 <= i < |rows| ==> NumberNodes(rows, next)[i] == rows[i].(id := next + i)
    decreases |rows|
  {
    if rows != [] {
      NumberNodesAt(rows[1..], next + 1);
    }
  }

  /** Inserting `rows` one statement at a time; the UNIQUE constraint on the
      name stops the run at the first clash, earlier rows staying in. */
  function InsertNodes(ns: seq<Node>, next: nat, rows: seq<Node>): (r: Inserted)
    ensures ns <= r.nodes
    decreases |rows|
  {
    if rows == [] then Inserted(true, ns, next)
    else if NameTaken(ns, rows[0].name) then Inserted(false, ns, next)
    else InsertNodes(ns + [rows[0].(id := next)], next + 1, rows[1..])
  }

  /** A successful run appends every row with consecutive ids; a failed one
      appends the rows before the first whose name is taken. */
  lemma InsertNodesResult(ns: seq<Node>, next: nat, rows: seq<Node>)
    ensures var r := InsertNodes(ns, next, rows);
      r.ok ==> r.nodes == ns + NumberNodes(rows, next) && r.next == next + |rows|
    ensures var r := InsertNodes(ns, next, rows);
      !r.ok ==>
        (next <= r.next < next + |rows| &&
         r.nodes == ns + NumberNodes(rows[..r.next - next], next) &&
         NameTaken(r.nodes, rows[r.next - next].name))
  {
    InsertNodesAppends(ns, next, rows);
    InsertNodesStops(ns, next, rows);
  }

  lemma {:induction false} InsertNodesAppends(ns: seq<Node>, next: nat, rows: seq<Node>)
    ensures var r := InsertNodes(ns, next, rows);
      r.ok ==> r.nodes == ns + NumberNodes(rows, next) && r.next == next + |rows|
    decreases |rows|
  {
    if rows != [] && !NameTaken(ns, rows[0].name) {
      var head := rows[0].(id := next);
      var r := InsertNodes(ns + [head], next + 1, rows[1..]);
      InsertNodesAppends(ns + [head], next + 1, rows[1..]);
      assert InsertNodes(ns, next, rows) == r;
      if r.ok {
        assert (ns + [head]) + NumberNodes(rows[1..], next + 1) == ns + ([head] + NumberNodes(rows[1..], next + 1));
      }
    }
  }

  lemma {:induction false} InsertNodesStops(ns: seq<Node>, next: nat, rows: seq<Node>)
    ensures var r := InsertNodes(ns, next, rows);
      !r.ok ==>
        (next <= r.next < next + |rows| &&
         r.nodes == ns + NumberNodes(rows[..r.next - next], next) &&
         NameTaken(r.nodes, rows[r.next - next].name))
    decreases |rows|
  {
    if rows == [] {
    } else if NameTaken(ns, rows[0].name) {
      assert ns + NumberNodes(rows[..0], next) == ns;
    } else {
      var head := rows[0].(id := next);
      var r := InsertNodes(ns + [head], next + 1, rows[1..]);
      InsertNodesStops(ns + [head], next + 1, rows[1..]);
      if !r.ok {
        var k := r.next - next - 1;
        NumberNodesCons(rows, next, k);
        assert r.nodes == ns + ([head] + NumberNodes(rows[1..][..k], next + 1));
        assert rows[1..][r.next - (next + 1)] == rows[r.next - next];
      }
    }
  }

  /** Inserting keeps the ids ascending and the names unique. */
  lemma {:induction false} InsertNodesValid(ns: seq<Node>, next: nat, rows: seq<Node>)
    requires NodesValid(ns, next)
    ensures NodesValid(InsertNodes(ns, next, rows).nodes, InsertNodes(ns, next, rows).next)
    decreases |rows|
  {
    if rows == [] {
      assert InsertNodes(ns, next, rows) == Inserted(true, ns, next);
    } else if NameTaken(ns, rows[0].name) {
      var r := InsertNodes(ns, next, rows);
      assert r.nodes == ns && r.next == next;
    } else {
      var ns' := ns + [rows[0].(id := next)];
      NodesValidSnoc(ns, next, rows[0]);
      var r := InsertNodes(ns', next + 1, rows[1..]);
      assert InsertNodes(ns, next, rows) == r;
      InsertNodesValid(ns', next + 1, rows[1..]);
    }
  }

  lemma NodesValidSnoc(ns: seq<Node>, next: nat, row: Node)
    requires NodesValid(ns, next) && !NameTaken(ns, row.name)
    ensures NodesValid(ns + [row.(id := next)], next + 1)
  {
    var ns' := ns + [row.(id := next)];
    forall i, j | 0 <= i < j < |ns'| ensures ns'[i].id < ns'[j].id && ns'[i].name != ns'[j].name {
      if j == |ns| {
        assert ns'[i] == ns[i];
      }
    }
  }

  lemma NumberNodesCons(rows: seq<Node>, next: nat, k: nat)
    requires k < |rows|
    ensures [rows[0].(id := next)] + NumberNodes(rows[1..][..k], next + 1) == NumberNodes(rows[..k + 1], next)
  {
    assert rows[..k + 1][1..] == rows[1..][..k];
  }

  /** The UPDATE of db.ts:128: the main node's metrics, only where `cpu_total`
      is NULL. */
  function FillMainMetrics(ns: seq<Node>, mainId: nat): (r: seq<Node>)
    ensures |r| == |ns|
    ensures forall i :: 0 <= i < |ns| ==> r[i].id == ns[i].id && r[i].name == ns[i].name && r[i].role == ns[i].role
    ensures forall i :: 0 <= i < |ns| && (ns[i].id != mainId || ns[i].cpuTotal.Some?) ==> r[i] == ns[i]
    ensures forall i :: 0 <= i < |ns| && ns[i].id == mainId ==> r[i].cpuTotal.Some?
    ensures forall i :: 0 <= i < |ns| && ns[i].id == mainId && ns[i].cpuTotal.None? ==>
      r[i] == ns[i].(cpuTotal := Some(8), cpuUsed := Some(2), memTotal := Some("32GB"),
                     memUsed := Some("8GB"), diskTotal := Some("500GB"), diskUsed := Some("120GB"))
    ensures forall next: nat :: NodesValid(ns, next) ==> NodesValid(r, next)
  {
    seq(|ns|, i requires 0 <= i < |ns| =>
      if ns[i].id == mainId && ns[i].cpuTotal.None? then
        ns[i].(cpuTotal := MainSeed.cpuTotal, cpuUsed := MainSeed.cpuUsed,
               memTotal := MainSeed.memTotal, memUsed := MainSeed.memUsed,
               diskTotal := MainSeed.diskTotal, diskUsed := MainSeed.diskUsed)
      else ns[i])
  }

  /** The UPDATE of db.ts:135: orphan resources go to the main node. */
  function AssignOrphans(rs: seq<Resource>, mainId: nat): (r: seq<Resource>)
    ensures |r| == |rs|
    ensures forall i :: 0 <= i < |rs| ==> r[i].nodeId.Some? && r[i] == rs[i].(nodeId := r[i].nodeId)
    ensures forall i :: 0 <= i < |rs| ==> r[i].nodeId == if rs[i].nodeId.None? then Some(mainId) else rs[i].nodeId
    ensures forall next: nat :: ResourcesValid(rs, next) ==> ResourcesValid(r, next)
  {
    seq(|rs|, i requires 0 <= i < |rs| => if rs[i].nodeId.None? then rs[i].(nodeId := Some(mainId)) else rs[i])
  }

  /** `worker?.id || defaultNode.id`. */
  function HostOr(worker: Option<nat>, mainId: nat): int {
    if worker.Some? && worker.value != 0 then worker.value else mainId
  }

  /** The demo resources of db.ts:167-177, passed through the `|| null` of
      db.ts:181; ids are given when they are inserted. */
  function ResourceSeeds(mainId: nat, worker1: Option<nat>, worker2: Option<nat>): seq<Resource> {
    var w1 := HostOr(worker1, mainId);
    var w2 := HostOr(worker2, mainId);
    [ Resource(0, Vms, "web-server", "running", None, None, Some(1), Some("2GB"), Some("20GB"), Some(mainId)),
      Resource(0, Vms, "db-server", "stopped", None, None, Some(2), Some("4GB"), Some("50GB"), Some(mainId)),
      Resource(0, Containers, "nginx-proxy", "up", Some("nginx:latest"), None, None, None, Some("1GB"), Some(w1)),
      Resource(0, Containers, "redis-cache", "exited", Some("redis:6"), None, None, None, Some("2GB"), Some(w1)),
      Resource(0, Jails, "app-jail", "active", None, Some("192.168.1.10"), Some(1), Some("1GB"), Some("10GB"), Some(w2)),
      Resource(0, Containers, "container-worker", "running", Some("fedora:latest"), None, None, None, Some("5GB"), Some(w1)),
      Resource(0, Containers, "postgres-db", "running", Some("postgres:15-alpine"), None, None, None, Some("10GB"), Some(w2)),
      Resource(0, Containers, "monitoring-agent", "running", Some("prometheus:latest"), None, None, None, Some("5GB"), Some(w1)),
      Resource(0, Containers, "logging-sidecar", "up", Some("fluentd:latest"), None, None, None, Some("1GB"), Some(w2)) ]
  }

  function NumberResources(rows: seq<Resource>, next: nat): (r: seq<Resource>)
    ensures |r| == |rows|
    ensures forall i :: 0 <= i < |r| ==> r[i] == rows[i].(id := next + i)
  {
    seq(|rows|, i requires 0 <= i < |rows| => rows[i].(id := next + i))
  }

  /** The persistent contents of the database file that `initDb` reads and
      writes (the audit log is left aside: `initDb` never touches it). */
  datatype Snapshot = Snapshot(
    tables: Schema, users: seq<User>, nodes: seq<Node>, resources: seq<Resource>,
    nextUserId: nat, nextNodeId: nat, nextResourceId: nat)

  /** `INTEGER PRIMARY KEY AUTOINCREMENT` and `UNIQUE` on the users table:
      ids from 1 up, ascending in insertion order, below the next id, and
      distinct usernames. */
  predicate UsersValid(us: seq<User>, next: nat) {
    && next >= 1
    && (forall i :: 0 <= i < |us| ==> 1 <= us[i].id < next)
    && (forall i, j :: 0 <= i < j < |us| ==> us[i].id < us[j].id && us[i].username != us[j].username)
  }

  /** The same for nodes, whose names are unique. */
  predicate NodesValid(ns: seq<Node>, next: nat) {
    && next >= 1
    && (forall i :: 0 <= i < |ns| ==> 1 <= ns[i].id < next)
    && (forall i, j :: 0 <= i < j < |ns| ==> ns[i].id < ns[j].id && ns[i].name != ns[j].name)
  }

  /** The same for resources, which have no other unique column. */
  predicate ResourcesValid(rs: seq<Resource>, next: nat) {
    && next >= 1
    && (forall i :: 0 <= i < |rs| ==> 1 <= rs[i].id < next)
    && (forall i, j :: 0 <= i < j < |rs| ==> rs[i].id < rs[j].id)
  }

  predicate SnapshotValid(s: Snapshot) {
    && UsersValid(s.users, s.nextUserId)
    && NodesValid(s.nodes, s.nextNodeId)
    && ResourcesValid(s.resources, s.nextResourceId)
  }

  /** The outcome of `initDb`: whether it returned a handle or threw, and
      the database afterwards (a throw leaves earlier statements applied). */
  datatype Boot = Boot(ok: bool, state: Snapshot)

  /** db.ts:121-130. */
  function EnsureMainNode(s: Snapshot): (r: Boot)
    ensures r.state.tables == s.tables && r.state.users == s.users && r.state.resources == s.resources
    ensures r.state.nextResourceId == s.nextResourceId && r.state.nextUserId == s.nextUserId
    ensures FirstWithRole(s.nodes, "main").None? && r.ok ==>
      r.state.nodes == s.nodes + [MainSeed.(id := s.nextNodeId)] && r.state.nextNodeId == s.nextNodeId + 1
    ensures FirstWithRole(s.nodes, "main").None? && !r.ok ==>
      r.state == s && NameTaken(s.nodes, MainSeed.name)
    ensures FirstWithRole(s.nodes, "main").Some? ==>
      (r.ok && r.state.nextNodeId == s.nextNodeId &&
       r.state.nodes == FillMainMetrics(s.nodes, s.nodes[FirstWithRole(s.nodes, "main").value].id))
    ensures r.ok ==> FirstWithRole(r.state.nodes, "main").Some?
    ensures r.ok ==> r.state.nodes[FirstWithRole(r.state.nodes, "main").value].cpuTotal.Some?
    ensures NodesValid(s.nodes, s.nextNodeId) ==> NodesValid(r.state.nodes, r.state.nextNodeId)
  {
    match FirstWithRole(s.nodes, "main")
    case None =>
      var ins := InsertNodes(s.nodes, s.nextNodeId, [MainSeed]);
      InsertNodesResult(s.nodes, s.nextNodeId, [MainSeed]);
      assert NodesValid(s.nodes, s.nextNodeId) ==> NodesValid(ins.nodes, ins.next) by {
        if NodesValid(s.nodes, s.nextNodeId) { InsertNodesValid(s.nodes, s.nextNodeId, [MainSeed]); }
      }
      assert NumberNodes([MainSeed], s.nextNodeId) == [MainSeed.(id := s.nextNodeId)];
      if ins.ok then
        assert ins.nodes[|s.nodes|].role == "main";
        Boot(true, s.(nodes := ins.nodes, nextNodeId := ins.next))
      else
        Boot(false, s.(nodes := ins.nodes, nextNodeId := ins.next))
    case Some(k) =>
      var filled := FillMainMetrics(s.nodes, s.nodes[k].id);
      assert filled[k].role == "main";
      Boot(true, s.(nodes := filled))
  }

  /** db.ts:139-152, in demo mode. */
  function SeedWorkers(s: Snapshot): (r: Boot)
    ensures r.state.tables == s.tables && r.state.users == s.users && r.state.resources == s.resources
    ensures r.state.nextResourceId == s.nextResourceId && r.state.nextUserId == s.nextUserId
    ensures FirstWithRole(s.nodes, "worker").Some? ==> r == Boot(true, s)
    ensures FirstWithRole(s.nodes, "worker").None? && r.ok ==>
      r.state.nodes == s.nodes + NumberNodes(WorkerSeeds, s.nextNodeId) && r.state.nextNodeId == s.nextNodeId + 3
    ensures r.ok ==> FirstWithRole(r.state.nodes, "worker").Some?
  {
    if FirstWithRole(s.nodes, "worker").Some? then Boot(true, s)
    else
      var ins := InsertNodes(s.nodes, s.nextNodeId, WorkerSeeds);
      InsertNodesResult(s.nodes, s.nextNodeId, WorkerSeeds);
      if ins.ok then
        assert ins.nodes[|s.nodes|].role == "worker";
        Boot(true, s.(nodes := ins.nodes, nextNodeId := ins.next))
      else
        Boot(false, s.(nodes := ins.nodes, nextNodeId := ins.next))
  }

  predicate HasUser(us: seq<User>, name: string) {
    exists i :: 0 <= i < |us| && us[i].username == name
  }

  /** db.ts:154-159: the `admin` account, hashed with the given salt. */
  function EnsureAdmin(s: Snapshot, salt: nat): (r: Snapshot)
    ensures r == s.(users := r.users, nextUserId := r.nextUserId)
    ensures HasUser(s.users, "admin") ==> r == s
    ensures !HasUser(s.users, "admin") ==>
      r.users == s.users + [User(s.nextUserId, "admin", HashPassword("admin", salt), "admin")] &&
      r.nextUserId == s.nextUserId + 1
    ensures HasUser(r.users, "admin")
    ensures UsersValid(s.users, s.nextUserId) ==> UsersValid(r.users, r.nextUserId)
  {
    if HasUser(s.users, "admin") then s
    else
      var u := User(s.nextUserId, "admin", HashPassword("admin", salt), "admin");
      assert (s.users + [u])[|s.users|] == u;
      s.(users := s.users + [u], nextUserId := s.nextUserId + 1)
  }

  /** db.ts:161-183, reached in demo mode with `defaultNode` the main node
      found before (absent, it would throw when a seed is built). */
  function SeedResources(s: Snapshot, main: Option<nat>): (r: Boot)
    ensures r.state == s.(resources := r.state.resources, nextResourceId := r.state.nextResourceId)
    ensures s.resources != [] ==> r == Boot(true, s)
    ensures s.resources == [] && main.Some? ==>
      (r.ok && r.state.nextResourceId == s.nextResourceId + 9 &&
       r.state.resources == NumberResources(ResourceSeeds(main.value, IdByName(s.nodes, "bsd-worker-01"), IdByName(s.nodes, "bsd-worker-02")), s.nextResourceId))
    ensures r.ok ==> r.state.resources != []
    ensures (forall i :: 0 <= i < |s.resources| ==> s.resources[i].nodeId.Some?) ==>
      forall j :: 0 <= j < |r.state.resources| ==> r.state.resources[j].nodeId.Some?
    ensures ResourcesValid(s.resources, s.nextResourceId) ==> ResourcesValid(r.state.resources, r.state.nextResourceId)
  {
    if s.resources != [] then Boot(true, s)
    else if main.None? then Boot(false, s)
    else
      var rows := NumberResources(ResourceSeeds(main.value, IdByName(s.nodes, "bsd-worker-01"), IdByName(s.nodes, "bsd-worker-02")), s.nextResourceId);
      Boot(true, s.(resources := rows, nextResourceId := s.nextResourceId + 9))
  }

  /** Appending rows keeps the first row of a role that was already there. */
  lemma {:induction false} FirstWithRoleAppend(a: seq<Node>, b: seq<Node>, role: string)
    requires FirstWithRole(a, role).Some?
    ensures FirstWithRole(a + b, role) == FirstWithRole(a, role)
    decreases |a|
  {
    if a[0].role != role {
      assert (a + b)[1..] == a[1..] + b;
      FirstWithRoleAppend(a[1..], b, role);
    }
  }

  /** db.ts:132-183, once the main node exists. */
  function Provision(s: Snapshot, demo: bool, salt: nat): (r: Boot)
    requires FirstWithRole(s.nodes, "main").Some?
    ensures r.state.tables == s.tables
    ensures r.ok ==> FirstWithRole(r.state.nodes, "main") == FirstWithRole(s.nodes, "main")
    ensures r.ok ==> HasUser(r.state.users, "admin")
    ensures r.ok && demo ==> FirstWithRole(r.state.nodes, "worker").Some? && r.state.resources != []
    ensures !demo ==>
      && r.ok && r.state.nodes == s.nodes && r.state.nextNodeId == s.nextNodeId
      && r.state.resources == AssignOrphans(s.resources, s.nodes[FirstWithRole(s.nodes, "main").value].id)
      && r.state.nextResourceId == s.nextResourceId
  {
    var main := FirstWithRole(s.nodes, "main");
    var mainId := s.nodes[main.value].id;
    var s3 := s.(resources := AssignOrphans(s.resources, mainId));
    var b4 := if demo then SeedWorkers(s3) else Boot(true, s3);
    if !b4.ok then b4
    else
      assert b4.state.nodes == s.nodes + b4.state.nodes[|s.nodes|..];
      FirstWithRoleAppend(s.nodes, b4.state.nodes[|s.nodes|..], "main");
      var s5 := EnsureAdmin(b4.state, salt);
      if demo then SeedResources(s5, Some(mainId)) else Boot(true, s5)
  }

  /** What `initDb` does to a database it opens. */
  function Bootstrap(s: Snapshot, demo: bool, salt: nat): (r: Boot)
    ensures r.ok ==> FirstWithRole(r.state.nodes, "main").Some?
    ensures r.ok ==> HasUser(r.state.users, "admin")
    ensures r.ok && demo ==> FirstWithRole(r.state.nodes, "worker").Some? && r.state.resources != []
  {
    var b := EnsureMainNode(s.(tables := MigrateSchema(s.tables)));
    if !b.ok then b else Provision(b.state, demo, salt)
  }

  /** `Bootstrap` is the main-node step followed, when that succeeds, by the
      remaining steps. */
  lemma BootstrapSteps(s: Snapshot, demo: bool, salt: nat)
    ensures var b := EnsureMainNode(s.(tables := MigrateSchema(s.tables)));
      Bootstrap(s, demo, salt) == if b.ok then Provision(b.state, demo, salt) else b
  {
  }

  /** With demo mode off no worker and no resource is seeded: after the
      main-node step, start-up only reassigns orphans and ensures the admin. */
  lemma BootstrapWithoutDemo(s: Snapshot, salt: nat)
    ensures var b := EnsureMainNode(s.(tables := MigrateSchema(s.tables)));
      var r := Bootstrap(s, false, salt);
      && r.ok == b.ok
      && (b.ok ==>
            && r.state.nodes == b.state.nodes && r.state.nextResourceId == b.state.nextResourceId
            && r.state.resources == AssignOrphans(b.state.resources, b.state.nodes[FirstWithRole(b.state.nodes, "main").value].id))
  {
  }

  /** The demo workers only add rows, and keep the table's constraints. */
  lemma SeedWorkersFacts(s: Snapshot)
    ensures s.nodes <= SeedWorkers(s).state.nodes
    ensures NodesValid(s.nodes, s.nextNodeId) ==>
      NodesValid(SeedWorkers(s).state.nodes, SeedWorkers(s).state.nextNodeId)
  {
    if FirstWithRole(s.nodes, "worker").None? {
      InsertNodesResult(s.nodes, s.nextNodeId, WorkerSeeds);
      if NodesValid(s.nodes, s.nextNodeId) {
        InsertNodesValid(s.nodes, s.nextNodeId, WorkerSeeds);
      }
    }
  }

  /** The demo resources are numbered from the next id on. */
  lemma SeedResourcesValid(s: Snapshot, main: Option<nat>)
    requires ResourcesValid(s.resources, s.nextResourceId)
    ensures ResourcesValid(SeedResources(s, main).state.resources, SeedResources(s, main).state.nextResourceId)
  {
  }

  /** After the steps that follow the main node, no resource is an orphan,
      nodes were only appended, and the tables' constraints still hold. */
  lemma ProvisionFacts(s: Snapshot, demo: bool, salt: nat)
    requires FirstWithRole(s.nodes, "main").Some?
    ensures var r := Provision(s, demo, salt);
      s.nodes <= r.state.nodes &&
      (forall j :: 0 <= j < |r.state.resources| ==> r.state.resources[j].nodeId.Some?) &&
      (SnapshotValid(s) ==> SnapshotValid(r.state))
  {
    var main := FirstWithRole(s.nodes, "main");
    var mainId := s.nodes[main.value].id;
    var s3 := s.(resources := AssignOrphans(s.resources, mainId));
    assert SnapshotValid(s) ==> SnapshotValid(s3);
    if demo {
      SeedWorkersFacts(s3);
    }
    var b4 := if demo then SeedWorkers(s3) else Boot(true, s3);
    if b4.ok {
      var s5 := EnsureAdmin(b4.state, salt);
      if demo && ResourcesValid(s5.resources, s5.nextResourceId) {
        SeedResourcesValid(s5, Some(mainId));
      }
    }
  }

  /** What holds after `initDb` has run on a database: the schema is the
      migrated one, and after a success the main node has metrics and no
      resource is an orphan. The tables' constraints are kept either way. */
  lemma BootstrapFacts(s: Snapshot, demo: bool, salt: nat)
    ensures var r := Bootstrap(s, demo, salt);
      && r.state.tables == MigrateSchema(s.tables)
      && (r.ok ==> r.state.nodes[FirstWithRole(r.state.nodes, "main").value].cpuTotal.Some?)
      && (r.ok ==> forall j :: 0 <= j < |r.state.resources| ==> r.state.resources[j].nodeId.Some?)
      && (SnapshotValid(s) ==> SnapshotValid(r.state))
  {
    var b := EnsureMainNode(s.(tables := MigrateSchema(s.tables)));
    if b.ok {
      ProvisionFacts(b.state, demo, salt);
      var r := Provision(b.state, demo, salt);
      var k := FirstWithRole(b.state.nodes, "main").value;
      assert r.state.nodes[k] == b.state.nodes[k];
    }
  }

  /** The main-node step finds a main node that has its metrics and leaves
      the table alone. */
  lemma MainNodeSettled(t: Snapshot)
    requires NodesValid(t.nodes, t.nextNodeId)
    requires FirstWithRole(t.nodes, "main").Some?
    requires t.nodes[FirstWithRole(t.nodes, "main").value].cpuTotal.Some?
    ensures EnsureMainNode(t) == Boot(true, t)
  {
    var k := FirstWithRole(t.nodes, "main").value;
    var filled := FillMainMetrics(t.nodes, t.nodes[k].id);
    forall i | 0 <= i < |t.nodes| ensures filled[i] == t.nodes[i] {
      if t.nodes[i].id == t.nodes[k].id {
        assert i == k;
      }
    }
    assert filled == t.nodes;
  }

  /** The orphan step changes nothing when every resource has a node. */
  lemma NoOrphansSettled(rs: seq<Resource>, mainId: nat)
    requires forall j :: 0 <= j < |rs| ==> rs[j].nodeId.Some?
    ensures AssignOrphans(rs, mainId) == rs
  {
    var r := AssignOrphans(rs, mainId);
    forall i | 0 <= i < |rs| ensures r[i] == rs[i] {
    }
  }

  /** The steps after the main node change nothing on a database that has
      the main node, no orphan, an `admin`, and in demo mode a worker and
      some resource. */
  lemma ProvisionSettled(t: Snapshot, demo: bool, salt: nat)
    requires FirstWithRole(t.nodes, "main").Some?
    requires forall j :: 0 <= j < |t.resources| ==> t.resources[j].nodeId.Some?
    requires HasUser(t.users, "admin")
    requires demo ==> FirstWithRole(t.nodes, "worker").Some? && t.resources != []
    ensures Provision(t, demo, salt) == Boot(true, t)
  {
    var mainId := t.nodes[FirstWithRole(t.nodes, "main").value].id;
    NoOrphansSettled(t.resources, mainId);
    assert t.(resources := AssignOrphans(t.resources, mainId)) == t;
  }

  /** Opening the database a second time with the same mode changes
      nothing: whatever the first run seeded is found and kept. */
  lemma BootstrapIdempotent(s: Snapshot, demo: bool, salt: nat, salt2: nat)
    requires SnapshotValid(s)
    requires Bootstrap(s, demo, salt).ok
    ensures Bootstrap(Bootstrap(s, demo, salt).state, demo, salt2) == Boot(true, Bootstrap(s, demo, salt).state)
  {
    var t := Bootstrap(s, demo, salt).state;
    BootstrapFacts(s, demo, salt);
    MigratedFixpoint(t.tables);
    assert t.(tables := MigrateSchema(t.tables)) == t;
    MainNodeSettled(t);
    ProvisionSettled(t, demo, salt2);
  }

  /** An open database: the schema, the four tables the backend uses, the
      audit log, and the autoincrement counters. */
  class Database {
    var tables: Schema
    var users: seq<User>
    var nodes: seq<Node>
    var resources: seq<Resource>
    var logs: seq<LogEntry>
    var nextUserId: nat
    var nextNodeId: nat
    var nextResourceId: nat

    /** Everything but the audit log. */
    function Contents(): Snapshot
      reads this
    {
      Snapshot(tables, users, nodes, resources, nextUserId, nextNodeId, nextResourceId)
    }

    ghost predicate Valid()
      reads this
    {
      SnapshotValid(Contents())
    }

    /** The database file as found on disk. */
    constructor (contents: Snapshot, log: seq<LogEntry>)
      ensures Contents() == contents && logs == log
    {
      tables := contents.tables;
      users := contents.users;
      nodes := contents.nodes;
      resources := contents.resources;
      nextUserId := contents.nextUserId;
      nextNodeId := contents.nextNodeId;
      nextResourceId := contents.nextResourceId;
      logs := log;
    }

    /** The `INSERT INTO logs` of `logAction` (db.ts:191): empty details are
        stored as NULL. */
    method Log(userId: Option<int>, action: string, details: Option<string>)
      modifies this`logs
      ensures logs == old(logs) + [LogEntry(userId, action, TextOrNull(details))]
    {
      logs := logs + [LogEntry(userId, action, TextOrNull(details))];
    }

    /** `INSERT INTO nodes`: fails on a taken name, otherwise appends the row
        with the next id. */
    method InsertNode(row: Node) returns (ok: bool, id: nat)
      modifies this`nodes, this`nextNodeId
      ensures var r := InsertNodes(old(nodes), old(nextNodeId), [row]);
        ok == r.ok && nodes == r.nodes && nextNodeId == r.next
      ensures ok ==> id == old(nextNodeId) && nodes == old(nodes) + [row.(id := id)]
    {
      InsertNodesResult(nodes, nextNodeId, [row]);
      if NameTaken(nodes, row.name) {
        return false, 0;
      }
      id := nextNodeId;
      nodes := nodes + [row.(id := id)];
      nextNodeId := nextNodeId + 1;
      ok := true;
    }

    /** `INSERT INTO resources`: appends the row with the next id. */
    method InsertResource(row: Resource) returns (id: nat)
      modifies this`resources, this`nextResourceId
      ensures id == old(nextResourceId) && nextResourceId == id + 1
      ensures resources == old(resources) + [row.(id := id)]
    {
      id := nextResourceId;
      resources := resources + [row.(id := id)];
      nextResourceId := nextResourceId + 1;
    }

    /** db.ts:31-119: the tables, then the columns later versions added. */
    method Migrate()
      modifies this`tables
      ensures tables == MigrateSchema(old(tables))
    {
      tables := CreateTables(tables);
      tables := MigrateResources(tables);
      AddMetricColumns();
    }

    /** db.ts:107-119: one `ALTER TABLE` per metric column missing from the
        listing taken before the loop. */
    method AddMetricColumns()
      requires "nodes" in tables
      modifies this`tables
      ensures tables == MigrateNodes(old(tables))
    {
      var info := tables["nodes"];
      var i := 0;
      assert MissingColumns(info, MetricColumns[..0]) == [];
      assert info + [] == info;
      assert tables == tables["nodes" := info];
      while i < |MetricColumns|
        invariant 0 <= i <= |MetricColumns|
        invariant tables == old(tables)["nodes" := info + MissingColumns(info, MetricColumns[..i])]
      {
        var col := MetricColumns[i];
        assert MetricColumns[..i + 1][..i] == MetricColumns[..i];
        assert MetricColumns[..i + 1][i] == col;
        assert MissingColumns(info, MetricColumns[..i + 1]) == MissingColumns(info, MetricColumns[..i]) +
          (if HasColumn(info, col) then [] else [Column(col, MetricType(col))]);
        if !HasColumn(info, col) {
          var front := MissingColumns(info, MetricColumns[..i]);
          assert tables["nodes"] == info + front;
          assert info + front + [Column(col, MetricType(col))] == info + (front + [Column(col, MetricType(col))]);
          tables := tables["nodes" := tables["nodes"] + [Column(col, MetricType(col))]];
        } else {
          assert MissingColumns(info, MetricColumns[..i]) + [] == MissingColumns(info, MetricColumns[..i]);
        }
        i := i + 1;
      }
      assert MetricColumns[..i] == MetricColumns;
      if forall c :: c in MetricColumns ==> HasColumn(info, c) {
        MissingColumnsNone(info, MetricColumns);
        assert old(tables)["nodes" := info + []] == old(tables);
      }
    }

    /** db.ts:121-130. */
    method EnsureMain() returns (ok: bool)
      modifies this`nodes, this`nextNodeId
      ensures Boot(ok, Contents()) == EnsureMainNode(old(Contents()))
    {
      var main := FirstWithRole(nodes, "main");
      if main.None? {
        var id;
        ok, id := InsertNode(MainSeed);
      } else {
        nodes := FillMainMetrics(nodes, nodes[main.value].id);
        ok := true;
      }
    }

    /** db.ts:140-151: the three workers, inserted one statement at a time. */
    method AddWorkers() returns (ok: bool)
      modifies this`nodes, this`nextNodeId
      ensures Boot(ok, Contents()) == SeedWorkers(old(Contents()))
    {
      if FirstWithRole(nodes, "worker").Some? {
        return true;
      }
      var i := 0;
      while i < |WorkerSeeds|
        invariant 0 <= i <= |WorkerSeeds|
        invariant InsertNodes(nodes, nextNodeId, WorkerSeeds[i..]) ==
          InsertNodes(old(nodes), old(nextNodeId), WorkerSeeds)
        invariant tables == old(tables) && users == old(users) && resources == old(resources)
        invariant nextUserId == old(nextUserId) && nextResourceId == old(nextResourceId)
      {
        var w := WorkerSeeds[i];
        assert WorkerSeeds[i..][0] == w && WorkerSeeds[i..][1..] == WorkerSeeds[i + 1..];
        var added, id := InsertNode(w);
        if !added {
          return false;
        }
        i := i + 1;
      }
      ok := true;
    }

    /** db.ts:154-159. */
    method AddAdmin(salt: nat)
      modifies this`users, this`nextUserId
      ensures Contents() == EnsureAdmin(old(Contents()), salt)
    {
      if !HasUser(users, "admin") {
        users := users + [User(nextUserId, "admin", HashPassword("admin", salt), "admin")];
        nextUserId := nextUserId + 1;
      }
    }

    /** db.ts:161-183: the demo resources, inserted one at a time. */
    method AddDemoResources(mainId: nat) returns (ok: bool)
      modifies this`resources, this`nextResourceId
      ensures Boot(ok, Contents()) == SeedResources(old(Contents()), Some(mainId))
    {
      if resources != [] {
        return true;
      }
      var rows := ResourceSeeds(mainId, IdByName(nodes, "bsd-worker-01"), IdByName(nodes, "bsd-worker-02"));
      var start := nextResourceId;
      var i := 0;
      while i < |rows|
        invariant 0 <= i <= |rows|
        invariant resources == NumberResources(rows, start)[..i]
        invariant nextResourceId == start + i
      {
        var id := InsertResource(rows[i]);
        i := i + 1;
      }
      assert NumberResources(rows, start)[..i] == NumberResources(rows, start);
      ok := true;
    }

    /** Everything `initDb` does once it has opened the file (db.ts:28-183):
        `ok` is false where a statement throws. */
    method Initialize(demo: bool, salt: nat) returns (ok: bool)
      modifies this
      ensures Boot(ok, Contents()) == Bootstrap(old(Contents()), demo, salt)
      ensures logs == old(logs)
    {
      ghost var s0 := old(Contents());
      Migrate();
      assert Contents() == s0.(tables := MigrateSchema(s0.tables));
      ok := EnsureMain();
      BootstrapSteps(s0, demo, salt);
      if ok {
        ok := Provide(demo, salt);
      }
    }

    /** db.ts:132-183. */
    method Provide(demo: bool, salt: nat) returns (ok: bool)
      requires FirstWithRole(nodes, "main").Some?
      modifies this`resources, this`nodes, this`nextNodeId, this`users, this`nextUserId, this`nextResourceId
      ensures Boot(ok, Contents()) == Provision(old(Contents()), demo, salt)
    {
      var mainId := nodes[FirstWithRole(nodes, "main").value].id;
      resources := AssignOrphans(resources, mainId);
      if demo {
        ok := AddWorkers();
        if !ok {
          return;
        }
      }
      AddAdmin(salt);
      ok := true;
      if demo {
        ok := AddDemoResources(mainId);
      }
    }
  }

  /** The module-level `db` handle of db.ts:10 next to the file that
      `config.dbPath` names. */
  class Connection {
    var db: Database?
    const file: Database

    constructor (file: Database)
      ensures db == null && this.file == file
    {
      db := null;
      this.file := file;
    }

    /** `initDb`: the open handle when there is one; otherwise the file is
        bootstrapped and, when no statement threw, becomes the handle. */
    method InitDb(demo: bool, salt: nat) returns (h: Database?)
      requires db == null || db == file
      modifies this, file
      ensures db == null || db == file
      ensures h == db
      ensures old(db) != null ==> db == old(db) && file.Contents() == old(file.Contents()) && file.logs == old(file.logs)
      ensures old(db) == null ==>
        var b := Bootstrap(old(file.Contents()), demo, salt);
        && file.Contents() == b.state && file.logs == old(file.logs)
        && (db != null <==> b.ok)
    {
      if db != null {
        return db;
      }
      var ok := file.Initialize(demo, salt);
      if ok {
        db := file;
      }
      h := db;
    }

    /** `logAction` (db.ts:189-192): opens the database first when needed.
        When that `initDb` throws, the source passes the exception to the
        caller; here the call returns with nothing logged. That cannot
        happen once the server has opened the database at start-up. */
    method LogAction(userId: Option<int>, action: string, details: Option<string>, demo: bool, salt: nat)
      requires db == null || db == file
      modifies this, file
      ensures db == null || db == file
      ensures old(db) != null ==> db == old(db) && file.Contents() == old(file.Contents())
      ensures old(db) == null ==>
        var b := Bootstrap(old(file.Contents()), demo, salt);
        file.Contents() == b.state && (db != null <==> b.ok)
      ensures file.logs == old(file.logs) + (if db != null then [LogEntry(userId, action, TextOrNull(details))] else [])
    {
      var h := InitDb(demo, salt);
      if h != null {
        h.Log(userId, action, details);
      }
    }
  }
}
