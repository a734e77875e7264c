/** The rows of the backend's SQLite tables (server/src/db.ts:31-85), the
    request bodies the handlers read, the three resource kinds with their
    status vocabularies, and the pure table updates behind the handlers'
    `UPDATE`/`DELETE ... WHERE` statements. */
module Records {
  import opened Text
  import opened Sequences

  /** The `:resource` route segment, one of `vms`, `containers`, `jails`. */
  datatype ResourceType = Vms | Containers | Jails

  function TypeName(t: ResourceType): string {
    match t
    case Vms => "vms"
    case Containers => "containers"
    case Jails => "jails"
  }

  /** `validResources.includes(resource)`, returning the kind it names. */
  function ParseResourceType(s: string): (r: Option<ResourceType>)
    ensures r.Some? <==> s == "vms" || s == "containers" || s == "jails"
    ensures r.Some? ==> TypeName(r.value) == s
  {
    if s == "vms" then Some(Vms)
    else if s == "containers" then Some(Containers)
    else if s == "jails" then Some(Jails)
    else None
  }

  lemma TypeNameRoundTrip(t: ResourceType)
    ensures ParseResourceType(TypeName(t)) == Some(t)
  {
  }

  /** The `:action` route segment, one of `start`, `stop`, `restart`. */
  datatype Action = Start | Stop | Restart

  function ActionName(a: Action): string {
    match a
    case Start => "start"
    case Stop => "stop"
    case Restart => "restart"
  }

  /** `validActions.includes(action)`, returning the action it names. */
  function ParseAction(s: string): (r: Option<Action>)
    ensures r.Some? <==> s == "start" || s == "stop" || s == "restart"
    ensures r.Some? ==> ActionName(r.value) == s
  {
    if s == "start" then Some(Start)
    else if s == "stop" then Some(Stop)
    else if s == "restart" then Some(Restart)
    else None
  }

  /** The status a resource has when it is not running: the status every
      created resource starts in, and the one `stop` sets. */
  function StoppedStatus(t: ResourceType): string {
    match t
    case Vms => "stopped"
    case Containers => "exited"
    case Jails => "inactive"
  }

  /** The status `start` and `restart` set. */
  function RunningStatus(t: ResourceType): string {
    match t
    case Vms => "running"
    case Containers => "up"
    case Jails => "active"
  }

  /** The statuses the network map draws with an animated edge. */
  predicate IsRunningLike(status: string) {
    status == "running" || status == "up" || status == "active"
  }

  /** The demo-mode status an action leads to: running-like exactly for
      `start` and `restart`, and always one of the two statuses of its kind. */
  function NextStatus(t: ResourceType, a: Action): (r: string)
    ensures IsRunningLike(r) <==> a == Start || a == Restart
    ensures r == StoppedStatus(t) || r == RunningStatus(t)
  {
    if a == Start || a == Restart then RunningStatus(t) else StoppedStatus(t)
  }

  /** The two statuses of a kind are distinct, and the running-like statuses
      are exactly the running statuses of the three kinds. */
  lemma StatusVocabulary(t: ResourceType, s: string)
    ensures StoppedStatus(t) != RunningStatus(t)
    ensures !IsRunningLike(StoppedStatus(t))
    ensures IsRunningLike(s) <==> s == RunningStatus(Vms) || s == RunningStatus(Containers) || s == RunningStatus(Jails)
  {
  }

  /** A row of the `resources` table. */
  datatype Resource = Resource(
    id: nat, kind: ResourceType, name: string, status: string,
    image: Option<string>, ip: Option<string>, cpu: Option<int>,
    memory: Option<string>, disk: Option<string>, nodeId: Option<int>)

  /** A row of the `nodes` table. */
  datatype Node = Node(
    id: nat, name: string, role: string, status: string, ip: Option<string>,
    cpuTotal: Option<int>, cpuUsed: Option<int>,
    memTotal: Option<string>, memUsed: Option<string>,
    diskTotal: Option<string>, diskUsed: Option<string>)

  /** A stored bcrypt hash, idealised: the salt it was made with and the
      password it accepts. */
  datatype PasswordHash = PasswordHash(salt: nat, secret: string)

  /** `bcrypt.hashSync(password, rounds)` with the salt drawn by the caller. */
  function HashPassword(password: string, salt: nat): PasswordHash {
    PasswordHash(salt, password)
  }

  /** `bcrypt.compareSync(password, hash)`. */
  predicate PasswordMatches(password: string, hash: PasswordHash) {
    hash.secret == password
  }

  /** A row of the `users` table. */
  datatype User = User(id: nat, username: string, password: PasswordHash, role: string)

  /** A row of the `logs` table (the id and timestamp SQLite fills in are not
      modelled; rows are kept in insertion order). */
  datatype LogEntry = LogEntry(userId: Option<int>, action: string, details: Option<string>)

  /** A `resource_update` broadcast (its timestamp is not modelled). */
  datatype Event = ResourceUpdate(resource: ResourceType)

  /** The JSON body of `POST`/`PUT /api/:resource`; an absent field is `None`. */
  datatype ResourceBody = ResourceBody(
    name: Option<string>, status: Option<string>, image: Option<string>,
    ip: Option<string>, cpu: Option<int>, memory: Option<string>,
    disk: Option<string>, nodeId: Option<int>)

  /** The JSON body of `POST`/`PUT /api/nodes`. */
  datatype NodeBody = NodeBody(
    name: Option<string>, role: Option<string>, status: Option<string>, ip: Option<string>,
    cpuTotal: Option<int>, cpuUsed: Option<int>,
    memTotal: Option<string>, memUsed: Option<string>,
    diskTotal: Option<string>, diskUsed: Option<string>)

  /** `text || null`: an absent or empty string is stored as NULL. */
  function TextOrNull(o: Option<string>): (r: Option<string>)
    ensures r.None? <==> o.None? || o.value == ""
    ensures r.Some? ==> r == o
  {
    if o.Some? && o.value != "" then o else None
  }

  /** `n || null`: an absent number or zero is stored as NULL. */
  function IntOrNull(o: Option<int>): (r: Option<int>)
    ensures r.None? <==> o.None? || o.value == 0
    ensures r.Some? ==> r == o
  {
    if o.Some? && o.value != 0 then o else None
  }

  /** A value interpolated into a template string: `undefined` when absent. */
  function Show(o: Option<string>): string {
    if o.Some? then o.value else "undefined"
  }

  /** `WHERE id = ? AND type = ?`. */
  predicate MatchesKey(r: Resource, id: nat, t: ResourceType) {
    r.id == id && r.kind == t
  }

  /** The rows a statement keyed by `(id, type)` touches; its length is the
      statement's `changes`. */
  function Matching(rs: seq<Resource>, id: nat, t: ResourceType): seq<Resource> {
    Filter(rs, r => MatchesKey(r, id, t))
  }

  /** `DELETE FROM resources WHERE id = ? AND type = ?`. */
  function DeleteByKey(rs: seq<Resource>, id: nat, t: ResourceType): (r: seq<Resource>)
    ensures forall i :: 0 <= i < |r| ==> !MatchesKey(r[i], id, t) && r[i] in rs
    ensures forall i :: 0 <= i < |rs| && !MatchesKey(rs[i], id, t) ==> rs[i] in r
    ensures |r| + |Matching(rs, id, t)| == |rs|
    ensures Matching(rs, id, t) == [] ==> r == rs
  {
    var r := Filter(rs, x => !MatchesKey(x, id, t));
    FilterComplement(rs, x => MatchesKey(x, id, t), x => !MatchesKey(x, id, t));
    if Matching(rs, id, t) == [] then
      FilterKeepsAll(rs, x => !MatchesKey(x, id, t));
      r
    else r
  }

  /** `UPDATE resources SET status = ? WHERE id = ? AND type = ?`. */
  function SetStatus(rs: seq<Resource>, id: nat, t: ResourceType, status: string): (r: seq<Resource>)
    ensures |r| == |rs|
    ensures forall i :: 0 <= i < |rs| ==> r[i].status == (if MatchesKey(rs[i], id, t) then status else rs[i].status)
    ensures forall i :: 0 <= i < |rs| ==> r[i] == rs[i].(status := r[i].status)
  {
    seq(|rs|, i requires 0 <= i < |rs| => if MatchesKey(rs[i], id, t) then rs[i].(status := status) else rs[i])
  }

  /** The status update touches the matching rows only, leaves every other
      column alone, and applying it twice is the same as applying it once. */
  lemma SetStatusProperties(rs: seq<Resource>, id: nat, t: ResourceType, status: string)
    ensures forall i :: 0 <= i < |rs| && MatchesKey(rs[i], id, t) ==>
      SetStatus(rs, id, t, status)[i] == rs[i].(status := status)
    ensures forall i :: 0 <= i < |rs| && !MatchesKey(rs[i], id, t) ==>
      SetStatus(rs, id, t, status)[i] == rs[i]
    ensures SetStatus(SetStatus(rs, id, t, status), id, t, status) == SetStatus(rs, id, t, status)
  {
  }

  /** The columns `PUT /api/:resource/:id` writes: name as given, the other
      fields through `|| null`; status and disk are not among them. */
  function Overwrite(r: Resource, body: ResourceBody, name: string): (w: Resource)
    ensures w.id == r.id && w.kind == r.kind && w.status == r.status && w.disk == r.disk
    ensures w.name == name && w.image == TextOrNull(body.image) && w.ip == TextOrNull(body.ip) &&
      w.cpu == IntOrNull(body.cpu) && w.memory == TextOrNull(body.memory) && w.nodeId == IntOrNull(body.nodeId)
    ensures w.image.Some? <==> body.image.Some? && body.image.value != ""
    ensures w.cpu.Some? <==> body.cpu.Some? && body.cpu.value != 0
    ensures w.nodeId.Some? <==> body.nodeId.Some? && body.nodeId.value != 0
  {
    r.(name := name, image := TextOrNull(body.image), ip := TextOrNull(body.ip),
       cpu := IntOrNull(body.cpu), memory := TextOrNull(body.memory),
       nodeId := IntOrNull(body.nodeId))
  }

  /** `UPDATE resources SET name = ?, image = ?, ... WHERE id = ? AND type = ?`. */
  function UpdateByKey(rs: seq<Resource>, id: nat, t: ResourceType, body: ResourceBody, name: string): (r: seq<Resource>)
    ensures |r| == |rs|
    ensures forall i :: 0 <= i < |rs| ==>
      r[i].id == rs[i].id && r[i].kind == rs[i].kind && r[i].status == rs[i].status && r[i].disk == rs[i].disk
    ensures forall i :: 0 <= i < |rs| && !MatchesKey(rs[i], id, t) ==> r[i] == rs[i]
    ensures forall i :: 0 <= i < |rs| && MatchesKey(rs[i], id, t) ==>
      r[i].name == name && (r[i].image.None? <==> body.image.None? || body.image == Some(""))
    ensures forall i :: 0 <= i < |rs| && MatchesKey(rs[i], id, t) ==>
      r[i].image == TextOrNull(body.image) && r[i].ip == TextOrNull(body.ip) &&
      r[i].cpu == IntOrNull(body.cpu) && r[i].memory == TextOrNull(body.memory) &&
      r[i].nodeId == IntOrNull(body.nodeId)
  {
    seq(|rs|, i requires 0 <= i < |rs| => if MatchesKey(rs[i], id, t) then Overwrite(rs[i], body, name) else rs[i])
  }

  /** `UPDATE resources SET node_id = NULL WHERE node_id = ?`. */
  function DetachNode(rs: seq<Resource>, n: nat): (r: seq<Resource>)
    ensures |r| == |rs|
    ensures forall i :: 0 <= i < |rs| ==> r[i].nodeId != Some(n) && r[i] == rs[i].(nodeId := r[i].nodeId)
    ensures forall i :: 0 <= i < |rs| && rs[i].nodeId != Some(n) ==> r[i] == rs[i]
    ensures forall i :: 0 <= i < |rs| && rs[i].nodeId == Some(n) ==> r[i].nodeId.None?
  {
    seq(|rs|, i requires 0 <= i < |rs| => if rs[i].nodeId == Some(n) then rs[i].(nodeId := None) else rs[i])
  }

  /** `DELETE FROM nodes WHERE id = ?`. */
  function DeleteNodeRow(ns: seq<Node>, n: nat): (r: seq<Node>)
    ensures IsSubsequence(r, ns)
    ensures forall x :: multiset(r)[x] == if x.id != n then multiset(ns)[x] else 0
    ensures forall i :: 0 <= i < |r| ==> r[i].id != n && r[i] in ns
    ensures forall i :: 0 <= i < |ns| && ns[i].id != n ==> ns[i] in r
  {
    FilterIsSubsequence(ns, (x: Node) => x.id != n);
    FilterMultisets(ns, (x: Node) => x.id != n);
    Filter(ns, (x: Node) => x.id != n)
  }

  /** A row of `GET /api/:resource`: the resource and, from the left join,
      the name of the node whose id equals its `node_id`. */
  datatype Listed = Listed(row: Resource, nodeName: Option<string>)

  /** The name of the first node with the given id, if any. */
  function NodeName(ns: seq<Node>, id: Option<int>): (r: Option<string>)
    ensures r.Some? <==> id.Some? && exists i :: 0 <= i < |ns| && ns[i].id == id.value
    ensures r.Some? ==> exists i :: (0 <= i < |ns| && ns[i].id == id.value && ns[i].name == r.value &&
      forall j :: 0 <= j < i ==> ns[j].id != id.value)
    decreases |ns|
  {
    if id.None? || ns == [] then None
    else if ns[0].id == id.value then Some(ns[0].name)
    else
      var r := NodeName(ns[1..], id);
      assert forall i :: 1 <= i < |ns| ==> ns[i] == ns[1..][i - 1];
      if r.Some? then
        var i :| (0 <= i < |ns[1..]| && ns[1..][i].id == id.value && ns[1..][i].name == r.value &&
          forall j :: 0 <= j < i ==> ns[1..][j].id != id.value);
        assert ns[i + 1] == ns[1..][i];
        assert forall j :: 1 <= j < i + 1 ==> ns[j] == ns[1..][j - 1];
        r
      else r
  }

  /** `WHERE type = ?`: the rows of one type, in table order. */
  function OfType(rs: seq<Resource>, t: ResourceType): (r: seq<Resource>)
    ensures IsSubsequence(r, rs)
    ensures forall x :: x in r <==> x in rs && x.kind == t
    ensures forall x :: multiset(r)[x] == if x.kind == t then multiset(rs)[x] else 0
  {
    FilterIsSubsequence(rs, (x: Resource) => x.kind == t);
    FilterMultisets(rs, (x: Resource) => x.kind == t);
    Filter(rs, (x: Resource) => x.kind == t)
  }

  /** `SELECT resources.*, nodes.name FROM resources LEFT JOIN nodes ... WHERE type = ?`. */
  function ListResources(rs: seq<Resource>, ns: seq<Node>, t: ResourceType): (r: seq<Listed>)
    ensures |r| == |OfType(rs, t)| <= |rs|
    ensures forall i :: 0 <= i < |r| ==> r[i].row == OfType(rs, t)[i] && r[i].nodeName == NodeName(ns, r[i].row.nodeId)
    ensures forall i :: 0 <= i < |r| ==> r[i].row.kind == t && r[i].row in rs
    ensures forall i :: 0 <= i < |rs| && rs[i].kind == t ==>
      Listed(rs[i], NodeName(ns, rs[i].nodeId)) in r
  {
    var own := OfType(rs, t);
    var r := seq(|own|, i requires 0 <= i < |own| => Listed(own[i], NodeName(ns, own[i].nodeId)));
    assert forall i :: 0 <= i < |rs| && rs[i].kind == t ==> rs[i] in own;
    assert forall x :: x in own ==> Listed(x, NodeName(ns, x.nodeId)) in r by {
      forall x | x in own ensures Listed(x, NodeName(ns, x.nodeId)) in r {
        var j :| 0 <= j < |own| && own[j] == x;
        assert r[j] == Listed(x, NodeName(ns, x.nodeId));
      }
    }
    r
  }
}
