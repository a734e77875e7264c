/** The request handlers of server/src/index.ts that read and write the
    database: login, the node and resource CRUD routes and the resource
    actions. Each handler runs on the open database handle and, where it
    broadcasts, on the socket.io server. Token signing and password hashing
    are parameters; a statement that throws inside a handler's `try` becomes
    a 400 answer carrying the SQLite message. */
module Api {
  import opened Text
  import opened Sequences
  import opened Records
  import opened Auth
  import opened Db

  /** What a handler answers with. */
  datatype Reply =
    | LoggedIn(token: string, user: Principal)            // 200 {token, user}
    | NodeSaved(code: int, id: nat, body: NodeBody)        // {id, ...req.body}
    | ResourceCreated(id: nat, name: string, status: string)  // 201 {id, name, status}
    | Listing(rows: seq<Listed>)                           // 200, the joined rows
    | Message(code: int, message: string)                  // {message}
    | NoContent                                            // 204
    | Crashed                                              // an uncaught throw: Express answers 500

  /** `jwt.sign(payload, SECRET_KEY, { expiresIn: '8h' })`. */
  type Signer = Principal -> string

  /** The socket.io server, as the `resource_update` events it broadcast. */
  class Broadcaster {
    var sent: seq<Event>

    constructor ()
      ensures sent == []
    {
      sent := [];
    }

    /** `io.emit('resource_update', ...)`. */
    method Emit(e: Event)
      modifies this
      ensures sent == old(sent) + [e]
    {
      sent := sent + [e];
    }
  }

  // ---------------------------------------------------------------- login

  /** `SELECT * FROM users WHERE username = ?` with `.get()`: the first row
      with that name; an absent username binds NULL, which equals nothing. */
  function FindUser(us: seq<User>, username: Option<string>): (r: Option<User>)
    ensures r.Some? <==> username.Some? && HasUser(us, username.value)
    ensures r.Some? ==> r.value in us && r.value.username == username.value
    decreases |us|
  {
    if username.None? || us == [] then None
    else if us[0].username == username.value then Some(us[0])
    else
      var r := FindUser(us[1..], username);
      assert forall i :: 1 <= i < |us| ==> us[i] == us[1..][i - 1];
      r
  }

  /** Which branch the login handler takes. */
  datatype LoginOutcome = Accepted(user: User) | Refused | Throws

  /** `user && bcrypt.compareSync(password, user.password)`, where
      `compareSync` throws when the password is absent. */
  function CheckLogin(us: seq<User>, username: Option<string>, password: Option<string>): (r: LoginOutcome)
    ensures r.Accepted? ==>
      && r.user in us && username == Some(r.user.username)
      && password.Some? && PasswordMatches(password.value, r.user.password)
    ensures r.Throws? <==> username.Some? && HasUser(us, username.value) && password.None?
    ensures username.None? ==> r == Refused
  {
    var user := FindUser(us, username);
    if user.None? then Refused
    else if password.None? then Throws
    else if PasswordMatches(password.value, user.value.password) then Accepted(user.value)
    else Refused
  }

  /** The token payload and the `user` of the reply. The users table has no
      `language` column, so that field is always absent. */
  function PrincipalOf(u: User): (p: Principal)
    ensures p.id == u.id && p.username == u.username && p.role == u.role && p.language.None?
  {
    Principal(u.id, u.username, u.role, None)
  }

  /** With unique usernames, a login is accepted exactly when the named
      user's stored hash matches the password, and it acts as that user. */
  lemma LoginAcceptsExactly(us: seq<User>, next: nat, name: string, password: string)
    requires UsersValid(us, next)
    ensures CheckLogin(us, Some(name), Some(password)).Accepted? <==>
      exists i :: 0 <= i < |us| && us[i].username == name && PasswordMatches(password, us[i].password)
    ensures CheckLogin(us, Some(name), Some(password)).Accepted? ==>
      forall i :: 0 <= i < |us| && us[i].username == name ==> us[i] == CheckLogin(us, Some(name), Some(password)).user
  {
    var u := FindUser(us, Some(name));
    if u.Some? {
      var k :| 0 <= k < |us| && us[k] == u.value;
      assert forall i :: 0 <= i < |us| && us[i].username == name ==> i == k;
    }
  }

  /** A user appended under a new name is the one a login by that name finds. */
  lemma {:induction false} FindUserAppended(us: seq<User>, u: User)
    requires !HasUser(us, u.username)
    ensures FindUser(us + [u], Some(u.username)) == Some(u)
    decreases |us|
  {
    if us == [] {
    } else {
      assert (us + [u])[1..] == us[1..] + [u];
      assert !HasUser(us[1..], u.username) by {
        forall i | 0 <= i < |us[1..]| ensures us[1..][i].username != u.username {
          assert us[1..][i] == us[i + 1];
        }
      }
      FindUserAppended(us[1..], u);
    }
  }

  /** Only the admin step of `initDb` touches the users table. */
  lemma BootstrapUsers(s: Snapshot, demo: bool, salt: nat)
    requires Bootstrap(s, demo, salt).ok
    ensures Bootstrap(s, demo, salt).state.users == EnsureAdmin(s, salt).users
  {
    var b := EnsureMainNode(s.(tables := MigrateSchema(s.tables)));
    var mainId := b.state.nodes[FirstWithRole(b.state.nodes, "main").value].id;
    var s3 := b.state.(resources := AssignOrphans(b.state.resources, mainId));
    var b4 := if demo then SeedWorkers(s3) else Boot(true, s3);
    assert b4.state.users == s.users && b4.state.nextUserId == s.nextUserId;
  }

  /** Freshly bootstrapped, the database lets `admin`/`admin` log in with
      role `admin`, whatever salt the hash was made with. */
  lemma BootstrapAdminLogin(s: Snapshot, demo: bool, salt: nat)
    requires !HasUser(s.users, "admin")
    requires Bootstrap(s, demo, salt).ok
    ensures var r := CheckLogin(Bootstrap(s, demo, salt).state.users, Some("admin"), Some("admin"));
      r.Accepted? && r.user.role == "admin"
  {
    BootstrapUsers(s, demo, salt);
    FindUserAppended(s.users, User(s.nextUserId, "admin", HashPassword("admin", salt), "admin"));
  }

  /** A token the login handler signed passes `authenticateToken` with the
      principal it was signed for, as long as the verifier accepts it. */
  lemma SignedTokenAuthenticates(p: Principal, sign: Signer, verify: Verifier, scheme: string)
    requires verify(sign(p)) == Some(p)
    requires ' ' !in sign(p) && sign(p) != "" && ' ' !in scheme
    ensures AuthenticateToken(Some(scheme + " " + sign(p)), verify) == Proceed(p)
  {
    BearerHeader(scheme, sign(p));
  }

  /** `POST /api/login` (index.ts:202-215): one audit row per answered
      attempt, the success row carrying the user's id and the failure row a
      NULL id; a user found with no password in the body makes bcrypt throw
      before anything is logged. */
  method Login(db: Database, username: Option<string>, password: Option<string>, sign: Signer) returns (reply: Reply)
    modifies db`logs
    ensures db.Contents() == old(db.Contents())
    ensures match CheckLogin(db.users, username, password)
      case Accepted(u) =>
        && reply == LoggedIn(sign(PrincipalOf(u)), PrincipalOf(u))
        && db.logs == old(db.logs) + [LogEntry(Some(u.id), "LOGIN_SUCCESS", Some("User " + Show(username) + " logged in"))]
      case Refused =>
        && reply == Message(401, "Invalid credentials")
        && db.logs == old(db.logs) + [LogEntry(None, "LOGIN_FAILURE", Some("Failed login attempt for user: " + Show(username)))]
      case Throws =>
        reply == Crashed && db.logs == old(db.logs)
  {
    var outcome := CheckLogin(db.users, username, password);
    match outcome {
      case Accepted(u) =>
        db.Log(Some(u.id), "LOGIN_SUCCESS", Some("User " + Show(username) + " logged in"));
        var p := PrincipalOf(u);
        reply := LoggedIn(sign(p), p);
      case Refused =>
        db.Log(None, "LOGIN_FAILURE", Some("Failed login attempt for user: " + Show(username)));
        reply := Message(401, "Invalid credentials");
      case Throws =>
        reply := Crashed;
    }
  }

  // ---------------------------------------------------------------- nodes

  /** `value || fallback` on a string. */
  function OrDefault(o: Option<string>, fallback: string): (r: string)
    ensures o.Some? && o.value != "" ==> r == o.value
    ensures o.None? || o.value == "" ==> r == fallback
  {
    if o.Some? && o.value != "" then o.value else fallback
  }

  /** The row `POST /api/nodes` inserts, before it gets its id: role `agent`,
      status `online` and ip `''` stand in for falsy values, so those three
      columns are never NULL, and zero or empty metrics are stored as NULL. */
  function NewNode(body: NodeBody, name: string): (r: Node)
    ensures r.name == name && r.role != "" && r.status != "" && r.ip.Some?
    ensures r.role == OrDefault(body.role, "agent") && r.status == OrDefault(body.status, "online")
    ensures r.ip == Some(OrDefault(body.ip, ""))
    ensures r.cpuTotal == IntOrNull(body.cpuTotal) && r.cpuUsed == IntOrNull(body.cpuUsed)
    ensures r.memTotal == TextOrNull(body.memTotal) && r.memUsed == TextOrNull(body.memUsed)
    ensures r.diskTotal == TextOrNull(body.diskTotal) && r.diskUsed == TextOrNull(body.diskUsed)
  {
    Node(0, name, OrDefault(body.role, "agent"), OrDefault(body.status, "online"), Some(OrDefault(body.ip, "")),
         IntOrNull(body.cpuTotal), IntOrNull(body.cpuUsed), TextOrNull(body.memTotal), TextOrNull(body.memUsed),
         TextOrNull(body.diskTotal), TextOrNull(body.diskUsed))
  }

  /** The audit details of a node creation: the raw role, `undefined` when absent. */
  function CreatedNodeDetails(name: string, role: Option<string>): string {
    "Created node " + name + " with role " + Show(role)
  }

  /** `POST /api/nodes` (index.ts:377-401). An absent name is a NOT NULL
      failure and a taken one a UNIQUE failure, both answered 400 with
      nothing written; otherwise the row is appended with the next id and
      one audit row is written. */
  method CreateNode(db: Database, actor: Principal, body: NodeBody) returns (reply: Reply)
    requires db.Valid()
    modifies db
    ensures db.Valid()
    ensures body.name.None? ==>
      reply == Message(400, "NOT NULL constraint failed: nodes.name") && unchanged(db)
    ensures body.name.Some? && NameTaken(old(db.nodes), body.name.value) ==>
      reply == Message(400, "UNIQUE constraint failed: nodes.name") && unchanged(db)
    ensures body.name.Some? && !NameTaken(old(db.nodes), body.name.value) ==>
      && reply == NodeSaved(201, old(db.nextNodeId), body)
      && db.Contents() == old(db.Contents()).(
           nodes := old(db.nodes) + [NewNode(body, body.name.value).(id := old(db.nextNodeId))],
           nextNodeId := old(db.nextNodeId) + 1)
      && db.logs == old(db.logs) + [LogEntry(Some(actor.id), "NODE_CREATE", Some(CreatedNodeDetails(body.name.value, body.role)))]
  {
    if body.name.None? {
      return Message(400, "NOT NULL constraint failed: nodes.name");
    }
    var name := body.name.value;
    var row := NewNode(body, name);
    if NameTaken(db.nodes, name) {
      return Message(400, "UNIQUE constraint failed: nodes.name");
    }
    NodesValidSnoc(db.nodes, db.nextNodeId, row);
    var ok, id := db.InsertNode(row);
    db.Log(Some(actor.id), "NODE_CREATE", Some(CreatedNodeDetails(name, body.role)));
    reply := NodeSaved(201, id, body);
  }

  predicate HasNodeId(ns: seq<Node>, id: nat) {
    exists i :: 0 <= i < |ns| && ns[i].id == id
  }

  /** The error `UPDATE nodes SET ... WHERE id = ?` raises: none when no row
      has the id (nothing is written, so no constraint is checked);
      otherwise NOT NULL on name, role and status in column order, then
      UNIQUE on the name against the other rows. */
  function NodeUpdateError(ns: seq<Node>, id: nat, body: NodeBody): (r: Option<string>)
    ensures HasNodeId(ns, id) ==> (r.None? <==>
      body.name.Some? && body.role.Some? && body.status.Some? &&
      forall i :: 0 <= i < |ns| && ns[i].id != id ==> ns[i].name != body.name.value)
    ensures !HasNodeId(ns, id) ==> r.None?
    ensures r == Some("NOT NULL constraint failed: nodes.name") <==> HasNodeId(ns, id) && body.name.None?
    ensures r == Some("NOT NULL constraint failed: nodes.role") <==>
      HasNodeId(ns, id) && body.name.Some? && body.role.None?
    ensures r == Some("NOT NULL constraint failed: nodes.status") <==>
      HasNodeId(ns, id) && body.name.Some? && body.role.Some? && body.status.None?
    ensures r == Some("UNIQUE constraint failed: nodes.name") <==>
      HasNodeId(ns, id) && body.name.Some? && body.role.Some? && body.status.Some? &&
      exists i :: 0 <= i < |ns| && ns[i].id != id && ns[i].name == body.name.value
  {
    if !HasNodeId(ns, id) then None
    else if body.name.None? then Some("NOT NULL constraint failed: nodes.name")
    else if body.role.None? then Some("NOT NULL constraint failed: nodes.role")
    else if body.status.None? then Some("NOT NULL constraint failed: nodes.status")
    else if exists i :: 0 <= i < |ns| && ns[i].id != id && ns[i].name == body.name.value then
      Some("UNIQUE constraint failed: nodes.name")
    else None
  }

  /** The columns `PUT /api/nodes/:id` writes, as given in the body. */
  function Rewrite(n: Node, body: NodeBody): Node
    requires body.name.Some? && body.role.Some? && body.status.Some?
  {
    Node(n.id, body.name.value, body.role.value, body.status.value, body.ip,
         body.cpuTotal, body.cpuUsed, body.memTotal, body.memUsed, body.diskTotal, body.diskUsed)
  }

  /** `UPDATE nodes SET ... WHERE id = ?` on a body that names every NOT NULL column. */
  function UpdateNodeRows(ns: seq<Node>, id: nat, body: NodeBody): (r: seq<Node>)
    requires body.name.Some? && body.role.Some? && body.status.Some?
    ensures |r| == |ns|
    ensures forall i :: 0 <= i < |ns| ==> r[i].id == ns[i].id
    ensures forall i :: 0 <= i < |ns| && ns[i].id != id ==> r[i] == ns[i]
    ensures forall i :: 0 <= i < |ns| && ns[i].id == id ==>
      r[i].name == body.name.value && r[i].role == body.role.value && r[i].status == body.status.value
    ensures forall i :: 0 <= i < |ns| && ns[i].id == id ==>
      r[i].ip == body.ip && r[i].cpuTotal == body.cpuTotal && r[i].cpuUsed == body.cpuUsed &&
      r[i].memTotal == body.memTotal && r[i].memUsed == body.memUsed &&
      r[i].diskTotal == body.diskTotal && r[i].diskUsed == body.diskUsed
  {
    seq(|ns|, i requires 0 <= i < |ns| => if ns[i].id == id then Rewrite(ns[i], body) else ns[i])
  }

  /** An update that raises no error keeps ids ascending and names unique. */
  lemma UpdateNodeValid(ns: seq<Node>, next: nat, id: nat, body: NodeBody)
    requires NodesValid(ns, next)
    requires HasNodeId(ns, id) && NodeUpdateError(ns, id, body).None?
    ensures NodesValid(UpdateNodeRows(ns, id, body), next)
  {
    var r := UpdateNodeRows(ns, id, body);
    forall i, j | 0 <= i < j < |r| ensures r[i].name != r[j].name {
      if ns[i].id == id {
        assert ns[j].id != id;
      } else if ns[j].id == id {
        assert ns[i].id != id;
      }
    }
  }

  function UpdatedNodeDetails(name: Option<string>, id: nat): string {
    "Updated node " + Show(name) + " (ID: " + NatToString(id) + ")"
  }

  /** `PUT /api/nodes/:id` (index.ts:446-463): every column is overwritten
      with the raw body value on the row with that id. A constraint error
      answers 400 with nothing written; otherwise one audit row is written
      and the body is echoed, even when no row had the id. */
  method UpdateNode(db: Database, actor: Principal, id: nat, body: NodeBody) returns (reply: Reply)
    requires db.Valid()
    modifies db
    ensures db.Valid()
    ensures NodeUpdateError(old(db.nodes), id, body).Some? ==>
      reply == Message(400, NodeUpdateError(old(db.nodes), id, body).value) && unchanged(db)
    ensures NodeUpdateError(old(db.nodes), id, body).None? ==>
      && reply == NodeSaved(200, id, body)
      && db.logs == old(db.logs) + [LogEntry(Some(actor.id), "NODE_UPDATE", Some(UpdatedNodeDetails(body.name, id)))]
    ensures !HasNodeId(old(db.nodes), id) ==> db.Contents() == old(db.Contents())
    ensures HasNodeId(old(db.nodes), id) && NodeUpdateError(old(db.nodes), id, body).None? ==>
      db.Contents() == old(db.Contents()).(nodes := UpdateNodeRows(old(db.nodes), id, body))
  {
    var err := NodeUpdateError(db.nodes, id, body);
    if err.Some? {
      return Message(400, err.value);
    }
    if HasNodeId(db.nodes, id) {
      UpdateNodeValid(db.nodes, db.nextNodeId, id, body);
      db.nodes := UpdateNodeRows(db.nodes, id, body);
    }
    db.Log(Some(actor.id), "NODE_UPDATE", Some(UpdatedNodeDetails(body.name, id)));
    reply := NodeSaved(200, id, body);
  }

  /** Removing a node keeps the remaining rows ascending and unique. */
  lemma DeleteNodeValid(ns: seq<Node>, next: nat, id: nat)
    requires NodesValid(ns, next)
    ensures NodesValid(DeleteNodeRow(ns, id), next)
  {
    FilterPairwise(ns, (x: Node) => x.id != id, (a: Node, b: Node) => a.id < b.id && a.name != b.name);
  }

  /** Detaching keeps every resource id. */
  lemma DetachNodeValid(rs: seq<Resource>, next: nat, id: nat)
    requires ResourcesValid(rs, next)
    ensures ResourcesValid(DetachNode(rs, id), next)
  {
    var r := DetachNode(rs, id);
    assert forall i :: 0 <= i < |rs| ==> r[i].id == rs[i].id;
  }

  /** Deleting a node and detaching its resources keeps the database valid. */
  lemma DeleteNodeKeepsValid(s: Snapshot, id: nat)
    requires SnapshotValid(s)
    ensures SnapshotValid(s.(resources := DetachNode(s.resources, id), nodes := DeleteNodeRow(s.nodes, id)))
  {
    DetachNodeValid(s.resources, s.nextResourceId, id);
    DeleteNodeValid(s.nodes, s.nextNodeId, id);
  }

  /** `DELETE /api/nodes/:id` (index.ts:560-570): its resources lose their
      node, the node row goes, one audit row is written, and 204 is sent
      whether or not the node existed. */
  method DeleteNode(db: Database, actor: Principal, id: nat) returns (reply: Reply)
    requires db.Valid()
    modifies db
    ensures db.Valid()
    ensures reply == NoContent
    ensures db.Contents() == old(db.Contents()).(
      resources := DetachNode(old(db.resources), id),
      nodes := DeleteNodeRow(old(db.nodes), id))
    ensures db.logs == old(db.logs) + [LogEntry(Some(actor.id), "NODE_DELETE", Some("Deleted node ID: " + NatToString(id)))]
  {
    var after := db.Contents().(resources := DetachNode(db.resources, id), nodes := DeleteNodeRow(db.nodes, id));
    DeleteNodeKeepsValid(db.Contents(), id);
    db.resources := after.resources;
    db.nodes := after.nodes;
    assert db.Contents() == after;
    db.Log(Some(actor.id), "NODE_DELETE", Some("Deleted node ID: " + NatToString(id)));
    reply := NoContent;
  }

  // ------------------------------------------------------------ resources

  /** `GET /api/:resource` (index.ts:590-605): an unknown type is refused,
      otherwise the resources of that type with their node's name. */
  function ListRoute(rs: seq<Resource>, ns: seq<Node>, resource: string): (r: Reply)
    ensures ParseResourceType(resource).None? <==> r == Message(400, "Invalid resource type")
    ensures ParseResourceType(resource).Some? ==> r == Listing(ListResources(rs, ns, ParseResourceType(resource).value))
    ensures r.Listing? ==> forall i :: 0 <= i < |r.rows| ==> TypeName(r.rows[i].row.kind) == resource && r.rows[i].row in rs
    ensures r.Listing? ==> forall i :: 0 <= i < |rs| && TypeName(rs[i].kind) == resource ==>
      Listed(rs[i], NodeName(ns, rs[i].nodeId)) in r.rows
  {
    match ParseResourceType(resource)
    case None => Message(400, "Invalid resource type")
    case Some(t) =>
      assert forall k: ResourceType :: TypeName(k) == resource ==> k == t;
      Listing(ListResources(rs, ns, t))
  }

  /** The row `POST /api/:resource` inserts, before it gets its id: the
      initial status of its type whatever the body says, falsy optional
      fields as NULL, and no disk. */
  function NewResource(t: ResourceType, body: ResourceBody, name: string): (r: Resource)
    ensures r.kind == t && r.name == name && r.status == StoppedStatus(t) && r.disk.None?
    ensures r.image == TextOrNull(body.image) && r.nodeId == IntOrNull(body.nodeId)
    ensures r.ip == TextOrNull(body.ip) && r.cpu == IntOrNull(body.cpu) && r.memory == TextOrNull(body.memory)
  {
    Resource(0, t, name, StoppedStatus(t), TextOrNull(body.image), TextOrNull(body.ip),
             IntOrNull(body.cpu), TextOrNull(body.memory), None, IntOrNull(body.nodeId))
  }

  /** A created resource is listed under its type, stopped. */
  lemma CreatedIsListed(rs: seq<Resource>, ns: seq<Node>, t: ResourceType, body: ResourceBody, name: string, id: nat)
    ensures var row := NewResource(t, body, name).(id := id);
      var reply := ListRoute(rs + [row], ns, TypeName(t));
      reply.Listing? && Listed(row, NodeName(ns, row.nodeId)) in reply.rows && row.status == StoppedStatus(t)
  {
    var row := NewResource(t, body, name).(id := id);
    assert (rs + [row])[|rs|] == row;
  }

  lemma ResourcesValidSnoc(rs: seq<Resource>, next: nat, row: Resource)
    requires ResourcesValid(rs, next)
    ensures ResourcesValid(rs + [row.(id := next)], next + 1)
  {
    var rs' := rs + [row.(id := next)];
    forall i, j | 0 <= i < j < |rs'| ensures rs'[i].id < rs'[j].id {
      if j == |rs| {
        assert rs'[i] == rs[i];
      }
    }
  }

  /** `POST /api/:resource` (index.ts:641-668): an unknown type or an absent
      name is answered 400 with nothing written; otherwise the row is
      appended with the next id and its type's initial status, one audit row
      is written and one update is broadcast. */
  method CreateResource(db: Database, io: Broadcaster, actor: Principal, resource: string, body: ResourceBody)
    returns (reply: Reply)
    requires db.Valid()
    modifies db, io
    ensures db.Valid()
    ensures ParseResourceType(resource).None? ==>
      reply == Message(400, "Invalid resource type") && unchanged(db) && unchanged(io)
    ensures ParseResourceType(resource).Some? && body.name.None? ==>
      reply == Message(400, "NOT NULL constraint failed: resources.name") && unchanged(db) && unchanged(io)
    ensures ParseResourceType(resource).Some? && body.name.Some? ==>
      var t := ParseResourceType(resource).value;
      var id := old(db.nextResourceId);
      && reply == ResourceCreated(id, body.name.value, StoppedStatus(t))
      && db.Contents() == old(db.Contents()).(
           resources := old(db.resources) + [NewResource(t, body, body.name.value).(id := id)],
           nextResourceId := id + 1)
      && db.logs == old(db.logs) + [LogEntry(Some(actor.id), "RESOURCE_CREATE", Some("Created " + resource + " " + body.name.value))]
      && io.sent == old(io.sent) + [ResourceUpdate(t)]
  {
    var kind := ParseResourceType(resource);
    if kind.None? {
      return Message(400, "Invalid resource type");
    }
    var t := kind.value;
    if body.name.None? {
      return Message(400, "NOT NULL constraint failed: resources.name");
    }
    var name := body.name.value;
    var row := NewResource(t, body, name);
    ResourcesValidSnoc(db.resources, db.nextResourceId, row);
    var id := db.InsertResource(row);
    db.Log(Some(actor.id), "RESOURCE_CREATE", Some("Created " + resource + " " + name));
    io.Emit(ResourceUpdate(t));
    reply := ResourceCreated(id, name, StoppedStatus(t));
  }

  /** Deleting by key keeps the remaining rows ascending. */
  lemma DeleteByKeyValid(rs: seq<Resource>, next: nat, id: nat, t: ResourceType)
    requires ResourcesValid(rs, next)
    ensures ResourcesValid(DeleteByKey(rs, id, t), next)
  {
    FilterPairwise(rs, x => !MatchesKey(x, id, t), (a: Resource, b: Resource) => a.id < b.id);
  }

  /** With ascending ids, at most one row matches a key, so a delete that
      changes something removes exactly one row. */
  lemma {:induction false} MatchingAtMostOne(rs: seq<Resource>, next: nat, id: nat, t: ResourceType)
    requires ResourcesValid(rs, next)
    ensures |Matching(rs, id, t)| <= 1
    decreases |rs|
  {
    if rs != [] {
      assert ResourcesValid(rs[1..], next) by {
        assert forall i :: 0 <= i < |rs[1..]| ==> rs[1..][i] == rs[i + 1];
      }
      if MatchesKey(rs[0], id, t) {
        assert forall i :: 0 <= i < |rs[1..]| ==> rs[0].id < rs[1..][i].id;
        FilterDropsAll(rs[1..], r => MatchesKey(r, id, t));
      } else {
        MatchingAtMostOne(rs[1..], next, id, t);
      }
    }
  }

  /** `DELETE /api/:resource/:id` (index.ts:692-712): an unknown type is
      answered 400 and an unmatched `(id, type)` 404, both with nothing
      written; otherwise the row goes, one audit row is written and one
      update is broadcast. */
  method DeleteResource(db: Database, io: Broadcaster, actor: Principal, resource: string, id: nat)
    returns (reply: Reply)
    requires db.Valid()
    modifies db, io
    ensures db.Valid()
    ensures ParseResourceType(resource).None? ==>
      reply == Message(400, "Invalid resource type") && unchanged(db) && unchanged(io)
    ensures ParseResourceType(resource).Some? && Matching(old(db.resources), id, ParseResourceType(resource).value) == [] ==>
      reply == Message(404, "Resource not found") && unchanged(db) && unchanged(io)
    ensures ParseResourceType(resource).Some? && Matching(old(db.resources), id, ParseResourceType(resource).value) != [] ==>
      var t := ParseResourceType(resource).value;
      && reply == NoContent
      && db.Contents() == old(db.Contents()).(resources := DeleteByKey(old(db.resources), id, t))
      && |db.resources| == |old(db.resources)| - 1
      && db.logs == old(db.logs) + [LogEntry(Some(actor.id), "RESOURCE_DELETE", Some("Deleted " + resource + " " + NatToString(id)))]
      && io.sent == old(io.sent) + [ResourceUpdate(t)]
  {
    var kind := ParseResourceType(resource);
    if kind.None? {
      return Message(400, "Invalid resource type");
    }
    var t := kind.value;
    if Matching(db.resources, id, t) == [] {
      return Message(404, "Resource not found");
    }
    MatchingAtMostOne(db.resources, db.nextResourceId, id, t);
    DeleteByKeyValid(db.resources, db.nextResourceId, id, t);
    db.resources := DeleteByKey(db.resources, id, t);
    db.Log(Some(actor.id), "RESOURCE_DELETE", Some("Deleted " + resource + " " + NatToString(id)));
    io.Emit(ResourceUpdate(t));
    reply := NoContent;
  }

  /** `PUT /api/:resource/:id` (index.ts:753-779): an unknown type is
      answered 400 and an unmatched `(id, type)` 404; a matched row with no
      name in the body fails NOT NULL (400); otherwise the row's name and
      optional fields are overwritten, its status untouched, one audit row is
      written and one update is broadcast. */
  method UpdateResource(db: Database, io: Broadcaster, actor: Principal, resource: string, id: nat, body: ResourceBody)
    returns (reply: Reply)
    requires db.Valid()
    modifies db, io
    ensures db.Valid()
    ensures ParseResourceType(resource).None? ==>
      reply == Message(400, "Invalid resource type") && unchanged(db) && unchanged(io)
    ensures ParseResourceType(resource).Some? && Matching(old(db.resources), id, ParseResourceType(resource).value) == [] ==>
      reply == Message(404, "Resource not found") && unchanged(db) && unchanged(io)
    ensures ParseResourceType(resource).Some? && Matching(old(db.resources), id, ParseResourceType(resource).value) != [] && body.name.None? ==>
      reply == Message(400, "NOT NULL constraint failed: resources.name") && unchanged(db) && unchanged(io)
    ensures ParseResourceType(resource).Some? && Matching(old(db.resources), id, ParseResourceType(resource).value) != [] && body.name.Some? ==>
      var t := ParseResourceType(resource).value;
      && reply == Message(200, "Resource updated successfully")
      && db.Contents() == old(db.Contents()).(resources := UpdateByKey(old(db.resources), id, t, body, body.name.value))
      && db.logs == old(db.logs) + [LogEntry(Some(actor.id), "RESOURCE_UPDATE",
           Some("Updated " + resource + " " + body.name.value + " (ID: " + NatToString(id) + ")"))]
      && io.sent == old(io.sent) + [ResourceUpdate(t)]
  {
    var kind := ParseResourceType(resource);
    if kind.None? {
      return Message(400, "Invalid resource type");
    }
    var t := kind.value;
    if Matching(db.resources, id, t) == [] {
      return Message(404, "Resource not found");
    }
    if body.name.None? {
      return Message(400, "NOT NULL constraint failed: resources.name");
    }
    var name := body.name.value;
    db.resources := UpdateByKey(db.resources, id, t, body, name);
    db.Log(Some(actor.id), "RESOURCE_UPDATE", Some("Updated " + resource + " " + name + " (ID: " + NatToString(id) + ")"));
    io.Emit(ResourceUpdate(t));
    reply := Message(200, "Resource updated successfully");
  }

  /** The audit action and details of `POST /api/:resource/:id/:action`. */
  function ActionLogName(action: string): string {
    "RESOURCE_" + Upper(action)
  }

  function ActionDetails(action: string, resource: string, id: nat): string {
    action + "ed " + resource + " " + NatToString(id)
  }

  /** `POST /api/:resource/:id/:action` (index.ts:810-836): an unknown type
      or action is answered 400 with nothing written. Otherwise, in demo
      mode the status of the row keyed `(id, type)` becomes the action's
      target status (no other row or column changes; an unmatched key
      changes nothing and is not reported); then one audit row is written,
      one update is broadcast and success is answered. */
  method ApplyAction(db: Database, io: Broadcaster, actor: Principal, resource: string, id: nat, action: string, demo: bool)
    returns (reply: Reply)
    requires db.Valid()
    modifies db, io
    ensures db.Valid()
    ensures ParseResourceType(resource).None? || ParseAction(action).None? ==>
      reply == Message(400, "Invalid resource or action") && unchanged(db) && unchanged(io)
    ensures ParseResourceType(resource).Some? && ParseAction(action).Some? ==>
      var t := ParseResourceType(resource).value;
      var a := ParseAction(action).value;
      && reply == Message(200, "Successfully " + ActionDetails(action, resource, id))
      && db.Contents() == old(db.Contents()).(resources :=
           if demo then SetStatus(old(db.resources), id, t, NextStatus(t, a)) else old(db.resources))
      && db.logs == old(db.logs) + [LogEntry(Some(actor.id), ActionLogName(action), Some(ActionDetails(action, resource, id)))]
      && io.sent == old(io.sent) + [ResourceUpdate(t)]
  {
    var kind := ParseResourceType(resource);
    var act := ParseAction(action);
    if kind.None? || act.None? {
      return Message(400, "Invalid resource or action");
    }
    var t, a := kind.value, act.value;
    if demo {
      SetStatusProperties(db.resources, id, t, NextStatus(t, a));
      db.resources := SetStatus(db.resources, id, t, NextStatus(t, a));
    }
    db.Log(Some(actor.id), ActionLogName(action), Some(ActionDetails(action, resource, id)));
    io.Emit(ResourceUpdate(t));
    reply := Message(200, "Successfully " + ActionDetails(action, resource, id));
  }

  /** In demo mode an action leaves the keyed row with the action's target
      status, running-like exactly for `start` and `restart`; repeating the
      action leaves the table as one application did. */
  lemma ActionOutcome(rs: seq<Resource>, id: nat, t: ResourceType, a: Action)
    ensures var r := SetStatus(rs, id, t, NextStatus(t, a));
      && (forall i :: 0 <= i < |rs| && MatchesKey(rs[i], id, t) ==>
            (IsRunningLike(r[i].status) <==> a != Stop) && r[i] == rs[i].(status := r[i].status))
      && (forall i :: 0 <= i < |rs| && !MatchesKey(rs[i], id, t) ==> r[i] == rs[i])
      && SetStatus(r, id, t, NextStatus(t, a)) == r
  {
    SetStatusProperties(rs, id, t, NextStatus(t, a));
  }
}
