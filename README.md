# CloudBSD admin panel: a Dafny model of its core

The CloudBSD admin panel is a web console for a small cluster of FreeBSD
hosts. An Express backend keeps nodes, virtual machines, containers, jails,
users and an audit log in SQLite. A React front end lists them, draws them on a
network map and shows the audit log.

This project models the parts of that system that decide what is stored and
what is answered:

- **Auth** (`auth.dfy`). The middleware chain: the bearer token is taken from
  the `Authorization` header. It is checked by an abstract verifier, then the
  flat `isAdmin` and `isOperator` role checks apply.
- **Records** (`records.dfy`). The table rows as datatypes, plus the pure table
  updates the handlers run: delete by key, status update, overwrite, detach,
  and the left-join listing.
- **Db** (`db.dfy`). `initDb`:
  - the table script and the add-missing-column migrations;
  - the main node, demo workers, admin user and demo resources, each seeded
    only when absent;
  - orphan reassignment;
  - the module-level handle;
  - `logAction`.

  The steps are written twice: as pure functions over a `Snapshot`, and as
  methods of a `Database` class whose `seq` fields they update. Each method is
  proved equal to its function.
- **Api** (`api.dfy`). The login, node and resource handlers as methods on the
  `Database` and a `Broadcaster`. Each one states its reply, the new tables,
  the audit rows and the `resource_update` events it emits.
- **Cluster** (`cluster.dfy`). `parseMemory`/`parseDisk`, the stats loop and
  the rounded percentages of `GET /api/cluster/stats`.
- **License** (`license.dfy`). The key checks and tier classification of
  `POST /api/system/license`.
- **Config** (`config.dfy`). `loadConfig`'s ordered search of the candidate
  files, the shallow spread merge over the defaults, and `reloadConfig`.
- **LogsView** (`logs_view.dfy`). The audit-log page's search filter, the
  action badge colour and the user cell.
- **NetworkMap** (`network_map.dfy`). The network-map page:
  - the search filter;
  - `createGraph` as a method with its loops, proved equal to a
    specification of the graph;
  - the expansion-map updates.

`Text` and `Sequences` hold the string and sequence helpers they share.

Token signing and verification and bcrypt are parameters or idealised
values. JWT is a `Signer` function and a `Verifier` function. A bcrypt hash
is a `PasswordHash(salt, secret)` that accepts exactly its secret. The file
system of `loadConfig` is a map from path to optional contents. `JSON.parse`
is a `Parser` function.

## Model

| member | source | states |
|---|---|---|
| Auth.BearerToken | server/src/index.ts:134-137 | a token is found exactly when the header's second space-separated field exists and is non-empty, and it is that field; it holds no space |
| Auth.BearerHeader | server/src/index.ts:135 | a header `<scheme> <token>` (section 2.1 of RFC 6750) yields exactly that token, whatever the scheme word is |
| Auth.SchemeOnlyHeader | server/src/index.ts:135-137 | a one-word header carries no token |
| Auth.AuthenticateToken | server/src/index.ts:133-144 | 401 exactly when there is no token, 403 exactly when the verifier rejects it, otherwise proceeds with the verified principal |
| Auth.RoleLattice | server/src/index.ts:146-160 | `isAdmin` implies `isOperator`; operator-but-not-admin is exactly role `operator`; any other role (e.g. `viewer`) fails both |
| Auth.IsAdminRole | server/src/index.ts:146-152 | `isAdmin` admits only `admin`, and whatever it admits `isOperator` admits too |
| Auth.IsOperatorRole | server/src/index.ts:154-160 | `isOperator` admits exactly `admin` and `operator` |
| Auth.RoleCheck | server/src/index.ts:146-160 | the principal goes on unchanged exactly when the route's guard admits its role (any role, `admin`/`operator`, or `admin` only); otherwise 403 |
| Auth.Authorize | server/src/index.ts:133-160 | the chain rejects with 401 without a token, otherwise proceeds exactly when the token verifies and the role is admitted, with the verified principal |
| Auth.AccessMonotone | server/src/index.ts:146-160 | passing an admin-only route implies passing an operator route, which implies passing an authenticated-only route |
| Records.ParseResourceType | server/src/index.ts:592-595 | the segment is accepted exactly for `vms`, `containers`, `jails`, and names the type it came from |
| Records.TypeNameRoundTrip | server/src/index.ts:592 | parsing a type's name gives the type back |
| Records.ParseAction | server/src/index.ts:813-817 | the action is accepted exactly for `start`, `stop`, `restart`, and names the action it came from |
| Records.NextStatus | server/src/index.ts:821-826 | `start`/`restart` lead to the type's running status and `stop` to its stopped status; the result is running-like exactly for start and restart |
| Records.StatusVocabulary | server/src/index.ts:820-828 | a type's two statuses differ, the stopped one is not running-like, and running-like means one of `running`, `up`, `active` |
| Records.TextOrNull | server/src/db.ts:191 | `x \|\| null` on text: NULL exactly for an absent or empty string, otherwise the value |
| Records.IntOrNull | server/src/index.ts:659 | `x \|\| null` on a number: NULL exactly for an absent value or zero, otherwise the value |
| Records.DeleteByKey | server/src/index.ts:702-703 | removes exactly the rows matching `(id, type)`, keeps every other row, its length drops by the match count, and nothing changes without a match |
| Records.SetStatusProperties | server/src/index.ts:827 | the status update sets the status on matching rows only, leaves every other row and column alone, and applying it twice equals applying it once |
| Records.SetStatus | server/src/index.ts:827 | a row's status becomes the new one exactly when it matches `(id, type)`; every other column of every row stays |
| Records.UpdateByKey | server/src/index.ts:764-768 | matching rows get the new name and `\|\| null` of the body's image, ip, cpu, memory and node id, with id, type, status and disk kept; other rows are unchanged |
| Records.Overwrite | server/src/index.ts:764-768 | the rewritten row keeps id, type, status and disk, takes the new name, and stores `\|\| null` of the body's image, ip, cpu, memory and node id, so image, cpu and node id are non-NULL exactly when the body's value is truthy |
| Records.DetachNode | server/src/index.ts:565 | exactly the resources whose `node_id` is n get NULL; every other resource and every other column is unchanged |
| Records.DeleteNodeRow | server/src/index.ts:567 | an order-preserving subsequence in which every row without id n keeps its multiplicity and rows with id n have none |
| Records.OfType | server/src/index.ts:598-602 | `WHERE type = ?`: an order-preserving subsequence holding exactly the rows of the type, each as often as in the table |
| Records.NodeName | server/src/index.ts:599-601 | the joined node name is present exactly when some node has the resource's `node_id`, and it is the name of the first such node |
| Records.ListResources | server/src/index.ts:598-604 | one entry per resource of the type, in table order (no more, no fewer), each with the name of its node from the left join |
| Db.CreateTables | server/src/db.ts:31-85 | the `resources` and `nodes` tables exist afterwards, and a schema with every table is untouched |
| Db.CreateTablesFacts | server/src/db.ts:31-85 | existing tables keep their columns, every declared table exists, and new tables get their declared columns |
| Db.MissingColumns | server/src/db.ts:108-119 | adds only absent metric columns, `INTEGER` exactly for the `cpu` ones and `TEXT` otherwise, after which every wanted column is there |
| Db.MissingColumnsNone | server/src/db.ts:110-111 | when every wanted column exists, nothing is added |
| Db.MigrateResources | server/src/db.ts:87-105 | `node_id` and `disk` exist afterwards, other tables are untouched, and a migrated table is left as it is |
| Db.MigrateNodes | server/src/db.ts:107-119 | every metric column exists afterwards, other tables are untouched, and a migrated table is left as it is |
| Db.MigrateSchema | server/src/db.ts:31-119 | the result is migrated and keeps every table |
| Db.MigrateSchemaIdempotent | server/src/db.ts:87-119 | a second run of the migrations adds nothing |
| Db.FirstWithRole | server/src/db.ts:121-133 | `.get()` on a role: the first row with that role, or none when no row has it |
| Db.IdByName | server/src/db.ts:164-165 | the id of a row with that name, or none when no row has it |
| Db.NumberNodesAt | server/src/db.ts:147-150 | the inserted rows get consecutive ids from the autoincrement counter on |
| Db.InsertNodes | server/src/db.ts:147-150 | the insert loop only appends: the rows before it stay as a prefix |
| Db.InsertNodesCounts | server/src/db.ts:147-150 | the insert loop advances the counter by the rows it added, and succeeds exactly when it added every row |
| Db.InsertNodesResult | server/src/db.ts:147-150 | inserting rows one by one: success appends all of them with consecutive ids; a UNIQUE failure stops at the first taken name with the earlier rows kept |
| Db.InsertNodesValid | server/src/db.ts:147-150 | inserting keeps node ids ascending below the counter and names unique |
| Db.FillMainMetrics | server/src/db.ts:127-129 | only the main node with NULL `cpu_total` changes, and it gets exactly 8, 2, `32GB`, `8GB`, `500GB`, `120GB` with every other column kept; validity is kept |
| Db.AssignOrphans | server/src/db.ts:132-136 | every NULL `node_id` becomes the main node's id, every other column and row stays, validity is kept |
| Db.EnsureMainNode | server/src/db.ts:121-130 | without a `main` node exactly one `CloudBSD Main` row is inserted; with one, only its metrics are filled; either way a main node with metrics exists |
| Db.SeedWorkers | server/src/db.ts:139-152 | the three workers are inserted only when no `worker` node exists; afterwards one exists |
| Db.EnsureAdmin | server/src/db.ts:154-159 | the `admin` user with role `admin` is added only when no user named `admin` exists; user validity is kept |
| Db.SeedResources | server/src/db.ts:161-183 | demo resources are added only to an empty table, under the main node or the workers, keeping validity |
| Db.FirstWithRoleAppend | server/src/db.ts:121-133 | appending rows does not change which row is the first with a role |
| Db.Provision | server/src/db.ts:132-183 | keeps the main node and leaves an `admin` user; in demo mode a worker and some resources exist afterwards; with demo mode off it succeeds, seeds no node and no resource, and only reassigns orphans to the main node |
| Db.Bootstrap | server/src/db.ts:28-183 | a successful start leaves a main node and an `admin` user, and in demo mode a worker and resources |
| Db.BootstrapWithoutDemo | server/src/db.ts:132-183 | with demo mode off, start-up after the main-node step seeds no node and no resource: the nodes stay and resources only lose their orphan state |
| Db.BootstrapSteps | server/src/db.ts:28-183 | the start is the migrations, then the main-node step, then the provisioning steps |
| Db.SeedWorkersFacts | server/src/db.ts:139-152 | the worker step only appends rows and keeps node validity |
| Db.SeedResourcesValid | server/src/db.ts:179-182 | the seeded resources are numbered from the counter on, keeping validity |
| Db.ProvisionFacts | server/src/db.ts:132-183 | after provisioning no resource has a NULL `node_id`, and validity is kept |
| Db.BootstrapFacts | server/src/db.ts:28-183 | after a successful start the schema is migrated, the main node has metrics, there are no orphans, and validity is kept |
| Db.MainNodeSettled | server/src/db.ts:121-130 | the main-node step leaves a database that already has a main node with metrics unchanged |
| Db.NoOrphansSettled | server/src/db.ts:135 | the orphan step changes nothing when every resource has a node |
| Db.ProvisionSettled | server/src/db.ts:132-183 | the provisioning steps change nothing on a database that already has everything |
| Db.BootstrapIdempotent | server/src/db.ts:28-183 | opening an initialised database again with the same mode changes nothing |
| Db.Database.Log | server/src/db.ts:191 | appends exactly one audit row with the user id and action, with empty details stored as NULL |
| Db.Database.InsertNode | server/src/db.ts:121-150 | inserts as the pure insert does; success appends the row with the next id |
| Db.Database.InsertResource | server/src/db.ts:179-181 | appends the row with the next id and advances the counter |
| Db.Database.Migrate | server/src/db.ts:31-119 | the schema becomes the migrated schema of the old one |
| Db.Database.AddMetricColumns | server/src/db.ts:107-119 | the loop over the metric columns gives the pure node migration |
| Db.Database.EnsureMain | server/src/db.ts:121-130 | the new state and the outcome are the main-node step of the old state |
| Db.Database.AddWorkers | server/src/db.ts:140-151 | the insert loop gives the pure worker step |
| Db.Database.AddAdmin | server/src/db.ts:154-159 | the new state is the admin step of the old one |
| Db.Database.AddDemoResources | server/src/db.ts:161-183 | the insert loop gives the pure resource-seeding step |
| Db.Database.Provide | server/src/db.ts:132-183 | the new state and the outcome are the provisioning of the old state |
| Db.Database.Initialize | server/src/db.ts:28-183 | the new state and the outcome are the bootstrap of the old state, with the audit log untouched |
| Db.Connection.InitDb | server/src/db.ts:10-186 | with a handle open it returns it and changes nothing; otherwise it bootstraps the file and keeps the handle only on success |
| Db.Connection.LogAction | server/src/db.ts:189-192 | opens the database when needed, then appends exactly one row when a handle exists |
| Api.Broadcaster.Emit | server/src/index.ts:662 | one `resource_update` event is appended |
| Api.FindUser | server/src/index.ts:205 | a user is found exactly when one has that name, and it is a stored row with that name |
| Api.CheckLogin | server/src/index.ts:205-207 | acceptance needs a stored user with that name and a matching password; a missing password on a found user throws; a missing username is refused |
| Api.PrincipalOf | server/src/index.ts:209-210 | the token payload carries the user's id, name and role, and no language |
| Api.LoginAcceptsExactly | server/src/index.ts:205-207 | with unique names, login succeeds exactly when the named user's hash matches, and acts as that user |
| Api.FindUserAppended | server/src/db.ts:158 | a user added under a new name is the one a login by that name finds |
| Api.BootstrapUsers | server/src/db.ts:154-159 | only the admin step changes the users table during start-up |
| Api.BootstrapAdminLogin | server/src/db.test.ts:10-21 | on a fresh database, `admin`/`admin` logs in with role `admin` |
| Api.SignedTokenAuthenticates | server/src/index.ts:133-215 | a token the login signed passes `authenticateToken` with its principal |
| Api.Login | server/src/index.ts:202-215 | success appends one `LOGIN_SUCCESS` row with the user's id and returns the token and user; failure appends one `LOGIN_FAILURE` row with NULL id and answers 401; tables are unchanged |
| Api.NewNode | server/src/index.ts:384-395 | the row has the given name; role, status and ip are the body's values or `agent`, `online` and `''` when falsy, so never NULL; every metric is the body's value through `\|\| null` |
| Api.CreateNode | server/src/index.ts:377-401 | no name or a taken name answers 400 with nothing written; otherwise one row with the next id, one `NODE_CREATE` row, 201 |
| Api.NodeUpdateError | server/src/index.ts:451-457 | on an existing id there is no error exactly when the body names every NOT NULL column and no other row has that name; each message is raised exactly in its case, in column order; an unknown id raises nothing |
| Api.UpdateNodeRows | server/src/index.ts:451-457 | the row with the id gets name, role, status, ip and all six metric columns exactly as the body gives them; other rows are unchanged; ids stay |
| Api.UpdateNodeValid | server/src/index.ts:451-457 | an update without error keeps ids ascending and names unique |
| Api.UpdateNode | server/src/index.ts:446-463 | a constraint error answers 400 with nothing written; otherwise the matching row is rewritten, one `NODE_UPDATE` row is logged, and the body is echoed even without a match |
| Api.DeleteNodeValid | server/src/index.ts:567 | removing a node keeps the node table valid |
| Api.DetachNodeValid | server/src/index.ts:565 | detaching keeps the resource table valid |
| Api.DeleteNodeKeepsValid | server/src/index.ts:565-567 | both statements together keep the database valid |
| Api.DeleteNode | server/src/index.ts:560-570 | exactly the node's resources are detached, then the node goes; one `NODE_DELETE` row is logged; 204 whether or not the node existed |
| Api.ListRoute | server/src/index.ts:590-605 | an unknown type answers 400; a known one answers the listing of that type's rows with their node names |
| Api.NewResource | server/src/index.ts:650-659 | the inserted row has the type's stopped status whatever the body says, no disk, and `\|\| null` of the body's image, ip, cpu, memory and node id |
| Api.CreatedIsListed | server/src/index.ts:590-668 | a created resource is listed under its type, stopped |
| Api.MatchingAtMostOne | server/src/index.ts:702 | with ascending ids, at most one row matches a key |
| Api.DeleteByKeyValid | server/src/index.ts:702 | deleting by key keeps the resource table valid |
| Api.CreateResource | server/src/index.ts:641-668 | an unknown type answers 400 with nothing written; a missing name fails NOT NULL with 400; otherwise one row, one `RESOURCE_CREATE` row, one event, 201 |
| Api.DeleteResource | server/src/index.ts:692-712 | an unknown type answers 400 and no match 404, both with nothing written; otherwise exactly the keyed row goes, one row is logged, one event is sent, 204 |
| Api.UpdateResource | server/src/index.ts:753-779 | an unknown type answers 400; no match answers 404 with nothing changed; otherwise the keyed row is overwritten with its status kept, logged and broadcast |
| Api.ApplyAction | server/src/index.ts:810-836 | an invalid type or action answers 400 with nothing written; otherwise in demo mode only the keyed row gets the action's status, and one row is logged and one event sent in either mode |
| Api.ActionOutcome | server/src/index.ts:820-828 | after an action, the keyed row has the action's target status, other rows are unchanged, and repeating the action changes nothing |
| Cluster.DigitRunEnd | server/src/index.ts:481 | the maximal run of digits from a position |
| Cluster.SpaceRunEnd | server/src/index.ts:481 | the maximal run of white space from a position |
| Cluster.UnitAt | server/src/index.ts:481 | a unit is read exactly when the next two characters are `GB`, `MB` or `TB` in any case |
| Cluster.MatchAt | server/src/index.ts:481 | the pattern matches at a position exactly when a digit starts there and a unit word follows the digit run and the white space after it; the unit read is that word's |
| Cluster.FirstMatch | server/src/index.ts:481 | the leftmost position where the pattern matches, or none when it matches nowhere |
| Cluster.ParseMemory | server/src/index.ts:479-488 | NULL or empty gives 0 |
| Cluster.ParseMemoryFallback | server/src/index.ts:481-482 | 0 when the pattern matches nowhere, and a positive result only when it matches |
| Cluster.ParseMemoryReads | server/src/index.ts:479-488 | `<n><spaces><unit>…` in any letter case reads as n×1, n×1024 or n×1048576 MB |
| Cluster.ParseMemoryNoDigits | server/src/index.ts:481-482 | a string with no digits reads as 0 |
| Cluster.ParseDisk | server/src/index.ts:490-499 | `parseDisk` is never negative, and NULL or empty gives 0 |
| Cluster.ParseDiskIsMemory | server/src/index.ts:490-499 | `parseDisk` is `parseMemory` divided by 1024 |
| Cluster.StatsOf | server/src/index.ts:501-519 | the node count is the row count and online is the number of `online` rows |
| Cluster.StatsBounds | server/src/index.ts:508-509 | online nodes are at most all nodes, all of them when every node is online; the sums are non-negative |
| Cluster.StatsPermutation | server/src/index.ts:477-519 | the totals do not depend on the order the rows come in |
| Cluster.PartialStep | server/src/index.ts:512-519 | one round of the loop adds the row's figures |
| Cluster.AccumulateStats | server/src/index.ts:501-519 | the loop computes the totals |
| Cluster.Round | server/src/index.ts:525 | `Math.round`: the nearest integer, halves rounded up |
| Cluster.Percent | server/src/index.ts:521-535 | 0 whenever the total is not positive |
| Cluster.PercentOfIntegers | server/src/index.ts:521-530 | on integer counts, `round(100·u/t)` is `(200u + t) div 2t` |
| Cluster.PercentBounds | server/src/index.ts:521-535 | a part of a positive total is 0 to 100 percent |
| Cluster.PercentScale | server/src/index.ts:535 | scaling both sides (MB to GB) does not change the percentage |
| Cluster.ClusterStats | server/src/index.ts:475-541 | the reply's node totals are the row count and the online count, and each percentage is 0 when its total is 0 |
| Cluster.ReportPercentages | server/src/index.ts:521-535 | each percentage with a positive total is the integer rounding of its quotient |
| License.Classify | server/src/index.ts:1005-1032 | the tier is one of the three, and its features always begin with `clustering`, `api_access`, `live_migration` |
| License.ClassifyPrecedence | server/src/index.ts:1005-1032 | `ENT` gives enterprise; `STD` without `ENT` gives standard; neither gives trial |
| License.EnterpriseKey | server/src/index.ts:1016-1023 | a key with `ENT` anywhere is enterprise with 99999 of each limit and `24/7` support |
| License.StandardKey | server/src/index.ts:1024-1031 | a key with `STD` and no `ENT` is standard with 25/100/500/200 |
| License.TiersOrdered | server/src/index.ts:1008-1031 | every limit grows from trial to standard to enterprise; trial's features are a prefix of both other lists, and every standard feature is also an enterprise feature |
| License.CheckKey | server/src/index.ts:994-1064 | a missing or empty key is refused, a key not starting with `CBSD-` is bad, otherwise it is classified |
| License.LicenseOutcome | server/src/index.ts:994-1065 | refusals are 400 with nothing written; a well-formed key is registered, with its tier, exactly when the `license` table exists with every column the `UPDATE` names; otherwise the statement throws (500) |
| License.RegisterLicense | server/src/index.ts:1037-1050 | one `LICENSE_UPDATE` audit row exactly when the key is registered |
| License.MigrationAddsNoLicense | server/src/db.ts:31-119 | the migrations never create a `license` table |
| License.FreshDatabaseCannotRegister | server/src/index.ts:1037-1048 | on a database `initDb` created, every well-formed key ends in a server error |
| License.MigrateWithLicense | server/src/index.ts:1037-1044 | the corrected schema is migrated, has a `license` table with every column the handler writes, and keeps every table |
| License.MigrateWithLicenseRegisters | server/src/index.ts:1004-1050 | with that table every well-formed key is registered with its tier, and the corrected migration is idempotent |
| Config.Defaults | server/src/config.ts:20-31 | the six default keys, with port 3001 and demoMode true |
| Config.Merge | server/src/config.ts:46 | the spread keeps every default key, the user's own properties win, and the other keys keep their default values |
| Config.LoadFrom | server/src/config.ts:38-57 | the loaded configuration keeps every default key, and is the defaults when no candidate is usable |
| Config.FirstUsable | server/src/config.ts:41-52 | the first candidate that exists and parses, with none before it; or none at all |
| Config.LoadFromFirstUsable | server/src/config.ts:38-57 | the configuration is the defaults merged with exactly the first usable candidate, or the defaults |
| Config.LoadConfig | server/src/config.ts:38-57 | the loop with its early return yields the first usable source and the merged configuration |
| Config.NoFileGivesDefaults | server/src/test/config.test.ts:23-29 | with no candidate present the result is the defaults: port 3001, demoMode true |
| Config.LaterPathsIgnored | server/src/config.ts:41-48 | once a candidate is usable, later paths do not affect the result |
| Config.UnparsableSkipped | server/src/config.ts:49-51 | an existing file that does not parse is skipped and the search goes on |
| Config.PropertylessFileWins | server/src/config.ts:45-48 | a file that parses to null, a boolean or a number ends the search with the defaults |
| Config.ShallowSsl | server/src/config.ts:46 | a user `ssl` object replaces the default one wholesale, dropping keys it lacks |
| Config.UserOverrides | server/src/test/config.test.ts:31-38 | `{"port": 4000, "demoMode": false}` overrides those two and keeps the rest |
| Config.Current.Reload | server/src/config.ts:59-66 | the module binding becomes a fresh load and is returned; the default export importers hold is a separate constant fixed at load time |
| LogsView.Filtered | src/pages/Logs.tsx:33-37 | an order-preserving subsequence holding exactly the rows whose action, username or details mention the term, ignoring case, each as often as in the log |
| LogsView.Keeps | src/pages/Logs.tsx:33-37 | a row whose action mentions the term is kept; a row without username and details is kept exactly when its action mentions it |
| LogsView.EmptyTermKeepsAll | src/pages/Logs.tsx:33-37 | an empty search keeps every row |
| LogsView.NullFieldsNeverMatch | src/pages/Logs.tsx:34-36 | a row with NULL username and details is kept only for its action |
| LogsView.CaseInsensitive | src/pages/Logs.tsx:34-36 | upper- or lower-casing the term changes nothing |
| LogsView.ActionColour | src/pages/Logs.tsx:39-44 | emerald exactly for SUCCESS/CREATE, red exactly for FAILURE/DELETE without those, blue exactly for RESOURCE without any of them |
| LogsView.ResourceCreateEmerald | src/pages/Logs.tsx:40 | `RESOURCE_CREATE` is emerald |
| LogsView.RedActions | src/pages/Logs.tsx:41 | `RESOURCE_DELETE` and `LOGIN_FAILURE` are red |
| LogsView.DisplayName | src/pages/Logs.tsx:120 | the username, or `System` when it is NULL or empty |
| LogsView.Initial | src/pages/Logs.tsx:117 | the upper-cased first letter of the username, or `S` |
| LogsView.SystemRow | src/pages/Logs.tsx:117-120 | a row without a user shows `System` with initial `S` |
| NetworkMap.Visible | src/pages/NetworkMap.tsx:178-181 | an order-preserving subsequence holding exactly the resources whose lower-cased name or type contains the lower-cased term, each as often as in the list |
| NetworkMap.AnchorKey | src/pages/NetworkMap.tsx:232 | an entry's key is `host-core` exactly when it has no id or id 0, and `node-<id>` otherwise |
| NetworkMap.BelongsTo | src/pages/NetworkMap.tsx:235 | a resource without a node belongs to a `core` entry; for any other entry with an id, a resource belongs exactly when its node id is that id |
| NetworkMap.CreateGraph | src/pages/NetworkMap.tsx:177-274 | the nodes and edges built are the specified graph elements and links |
| NetworkMap.AddHosts | src/pages/NetworkMap.tsx:186-226 | the core host, then one host and one core edge per non-`core` node, in order |
| NetworkMap.AddResources | src/pages/NetworkMap.tsx:228-270 | the resource nodes and edges of every expanded entry, in order |
| NetworkMap.AddEntry | src/pages/NetworkMap.tsx:237-269 | one resource node and one edge per attached resource, in order |
| NetworkMap.HostsAt | src/pages/NetworkMap.tsx:202-216 | host i is drawn from the i-th non-`core` node |
| NetworkMap.CoreLinksAt | src/pages/NetworkMap.tsx:218-225 | core edge i goes from the core host to the i-th non-`core` node |
| NetworkMap.HostsFirst | src/pages/NetworkMap.tsx:187-226 | the graph is the core host, then one host per non-`core` node, then only resource nodes |
| NetworkMap.LeavesAreLeaves | src/pages/NetworkMap.tsx:247-259 | everything after the hosts is a resource node |
| NetworkMap.ResourceLinksEndAtResources | src/pages/NetworkMap.tsx:261-264 | every resource edge ends at a resource key, never at a host |
| NetworkMap.NodeKeyInjective | src/pages/NetworkMap.tsx:204 | different node ids give different `node-<id>` keys |
| NetworkMap.OneCoreEdgePerHost | src/pages/NetworkMap.tsx:202-226 | with distinct node ids, each non-`core` node is the target of exactly one edge, and it comes from the core host |
| NetworkMap.KeyInjective | src/pages/NetworkMap.tsx:238 | equal `<type>-<id>` keys mean the same type and id |
| NetworkMap.LeafPresent | src/pages/NetworkMap.tsx:229-269 | a visible resource belonging to an expanded entry gets its node and its edge from that entry's host |
| NetworkMap.LeafSource | src/pages/NetworkMap.tsx:229-259 | every resource node comes from a visible resource belonging to an expanded entry |
| NetworkMap.LinkSource | src/pages/NetworkMap.tsx:229-268 | every resource edge links an expanded entry's host to a resource that belongs to it, with id `edge-<type>-<id>`, animated exactly for running-like statuses |
| NetworkMap.CoreLinksStill | src/pages/NetworkMap.tsx:219-225 | core-to-host edges are never animated |
| NetworkMap.NoCoreNode | src/pages/NetworkMap.tsx:187-202 | without a `core` node the core host is the synthetic `host-core` labelled `CloudBSD Core`, and every node is an other host |
| NetworkMap.InitExpansion | src/pages/NetworkMap.tsx:130-137 | adds `node-<id>` keys that are absent, set to true, and never overwrites an existing entry |
| NetworkMap.InitExpansionIdempotent | src/pages/NetworkMap.tsx:130-137 | initialising twice equals initialising once |
| NetworkMap.Toggle | src/pages/NetworkMap.tsx:149-154 | negates the one key (an absent key reads as false) and leaves every other key alone |
| NetworkMap.ToggleTwice | src/pages/NetworkMap.tsx:149-154 | toggling a key twice restores its expansion state |

## Left out

- JWT signing and verification, and bcrypt. They are the parameters `Signer`
  and `Verifier` and the idealised `PasswordHash`. Token expiry and the
  secret key are not modelled.
- Express routing, CORS, Swagger, and the HTTP/HTTPS listen calls. They are
  framework plumbing.
- The socket.io transport and terminal sessions, and the periodic random
  broadcast. Emitted events are recorded in `Api.Broadcaster`, without their
  timestamps.
- The system metrics endpoints. They read the operating system and random
  numbers.
- server/src/ssl.ts. It does certificate discovery and RSA generation.
- The `GET /api/system/license` endpoint. The `license` row after the
  `UPDATE` (expiry date, `registered_to`, the JSON feature column) is not
  kept. `License.RegisterLicense` answers with the tier, not the re-read row.
- The SQL engine. Tables are sequences of rows with strictly increasing
  autoincrement ids. `ON DELETE SET NULL`, WAL mode and the file-existence
  checks and `mkdir` of db.ts:15-26 are left out.
- Console logging in every file.
- Cluster.ClusterStats: the `toFixed` display strings of memory and disk are
  not modelled. Disk figures are exact `real` numbers, not IEEE doubles.
- Config.JoinPath: `path.join` is concatenation with `/`, without
  normalisation. The default `dbPath` is a parameter, because it derives
  from `__dirname`.
- Config.Current: importers get `export default config`, a value fixed at
  load time (server/src/index.ts:13, server/src/db.ts:6). The model keeps it as
  the constant `exported`, so `reloadConfig` reaches only the module's own
  binding. Nothing in the modelled core reads the reloaded value.
- Cluster.Percent: it rounds the exact quotient. The source rounds the IEEE
  double `(used / total) * 100`, which can fall just below a half: 23 of 40
  gives 57 in the source and 58 here. The precision loss of `parseInt` above
  2^53 is not modelled either.
- Request bodies and path parameters are typed. `NodeBody` and `ResourceBody`
  carry optional strings and integers. `Api.DeleteNode`, `Api.UpdateNode`,
  `Api.DeleteResource`, `Api.UpdateResource` and `Api.ApplyAction` take the
  `:id` parameter as a `nat`, and `License.CheckKey` takes the key as an
  optional string. The model therefore cannot express these behaviours:
  - a non-numeric id (`DELETE /api/vms/abc`) matches nothing;
  - a zero-padded id (`05`) is echoed verbatim in the audit details;
  - a string stored in an integer column (`cpu_total: "abc"`) makes the stats
    loop concatenate strings;
  - a non-string `license_key` makes `startsWith` throw (500).
- Config.Merge: the key order of a JavaScript object is not modelled, since
  an object is a map.
- Text.Lower and Text.Upper change only ASCII letters. JavaScript's Unicode
  case mapping is not modelled.
- React rendering and the other UI pages. The time formatting of the
  audit-log page is left out.
- NetworkMap.CreateGraph: the pixel layout (positions, `Math.cos`/`Math.sin`)
  and the React callbacks in node data are not modelled.
- Data fetching (`fetchData`'s requests and the 10-second refresh) is left
  out. Its expansion-map update is `NetworkMap.InitExpansion`.

## Findings

| source | as written | input that shows it | evidently intended | confidence | as-written member | corrected member |
|---|---|---|---|---|---|---|
| server/src/index.ts:1037-1048 | `POST /api/system/license` runs `UPDATE license …`, but the schema `initDb` creates has no `license` table, so the statement throws and the request fails with 500 after validation | license key `CBSD-ENT-1` on a database `initDb` created | the schema has a `license` table, so the key is registered with its tier | not executed | License.FreshDatabaseCannotRegister | License.MigrateWithLicenseRegisters |
