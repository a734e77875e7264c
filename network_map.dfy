/** The network-map page (src/pages/NetworkMap.tsx): the graph `createGraph`
    builds from the fetched resources and cluster nodes, and the map of
    expanded hosts. Positions are not modelled. */
module NetworkMap {
  import opened Text
  import opened Sequences
  import opened Records
  import opened Db

  /** A node of the drawn graph: a host, or a resource under a host. */
  datatype Element =
    | Host(id: string, title: string, expanded: bool)
    | Leaf(id: string, title: string, status: string, kind: ResourceType)

  /** An edge of the drawn graph; the core-to-host edges are not animated. */
  datatype Link = Link(id: string, source: string, target: string, animated: bool)

  /** `expandedNodes`: an absent key reads as `undefined`, which is falsy. */
  type Expansion = map<string, bool>

  predicate Expanded(m: Expansion, key: string) { key in m && m[key] }

  /** The initial state: only the synthetic core host is open. */
  const InitialExpansion: Expansion := map["host-core" := true]

  /** `node-${id}`. */
  function NodeKey(id: nat): (k: string)
    ensures k != [] && k[0] == 'n'
  {
    "node-" + NatToString(id)
  }

  /** `${type}-${id}`. */
  function ResourceKey(r: Resource): (k: string)
    ensures k != [] && k[0] in {'v', 'c', 'j'}
  {
    TypeName(r.kind) + "-" + NatToString(r.id)
  }

  // ---------------------------------------------------------------------
  // The search filter

  /** A resource survives the search box when its name or type mentions
      the term, ignoring case. */
  predicate Matches(r: Resource, term: string) {
    Mentions(r.name, term) || Mentions(TypeName(r.kind), term)
  }

  /** `filteredResources` (src/pages/NetworkMap.tsx:178-181). */
  function Visible(rs: seq<Resource>, term: string): (r: seq<Resource>)
    ensures IsSubsequence(r, rs)
    ensures forall x :: x in r <==> x in rs && Matches(x, term)
    ensures forall x :: multiset(r)[x] == if Matches(x, term) then multiset(rs)[x] else 0
  {
    FilterIsSubsequence(rs, x => Matches(x, term));
    FilterMultisets(rs, x => Matches(x, term));
    Filter(rs, x => Matches(x, term))
  }

  // ---------------------------------------------------------------------
  // Hosts and the core-to-host edges

  /** The host drawn as the management plane: the first node with role
      `core`, or a synthetic `host-core`. */
  function CoreKey(cluster: seq<Node>): string {
    match FirstWithRole(cluster, "core")
    case None => "host-core"
    case Some(i) => NodeKey(cluster[i].id)
  }

  /** `coreNodeData?.name || 'CloudBSD Core'`. */
  function CoreLabel(cluster: seq<Node>): string {
    match FirstWithRole(cluster, "core")
    case None => "CloudBSD Core"
    case Some(i) => if cluster[i].name != "" then cluster[i].name else "CloudBSD Core"
  }

  function CoreHost(cluster: seq<Node>, expanded: Expansion): Element {
    Host(CoreKey(cluster), CoreLabel(cluster), Expanded(expanded, CoreKey(cluster)))
  }

  /** `otherNodes`: every node whose role is not `core`. */
  function Others(cluster: seq<Node>): seq<Node> {
    Filter(cluster, (n: Node) => n.role != "core")
  }

  function HostOf(n: Node, expanded: Expansion): Element {
    Host(NodeKey(n.id), n.name, Expanded(expanded, NodeKey(n.id)))
  }

  function CoreLink(n: Node, coreKey: string): Link {
    Link("edge-core-" + NodeKey(n.id), coreKey, NodeKey(n.id), false)
  }

  /** One host per node, in order. */
  function Hosts(ns: seq<Node>, expanded: Expansion): (r: seq<Element>)
    ensures |r| == |ns|
    decreases |ns|
  {
    if ns == [] then [] else Hosts(ns[..|ns| - 1], expanded) + [HostOf(ns[|ns| - 1], expanded)]
  }

  /** One edge from the core host per node, in order. */
  function CoreLinks(ns: seq<Node>, coreKey: string): (r: seq<Link>)
    ensures |r| == |ns|
    decreases |ns|
  {
    if ns == [] then [] else CoreLinks(ns[..|ns| - 1], coreKey) + [CoreLink(ns[|ns| - 1], coreKey)]
  }

  // ---------------------------------------------------------------------
  // Resources under their hosts

  /** An entry of `allNodes`: a cluster node, or the placeholder
      `{ id: null, role: 'core' }` when the cluster is empty. */
  datatype Anchor = Anchor(id: Option<nat>, role: string)

  function Anchors(cluster: seq<Node>): (r: seq<Anchor>)
    ensures |r| == if cluster == [] then 1 else |cluster|
  {
    if cluster == [] then [Anchor(None, "core")]
    else seq(|cluster|, i requires 0 <= i < |cluster| => Anchor(Some(cluster[i].id), cluster[i].role))
  }

  /** `node.id ? node-${node.id} : 'host-core'`: a null or zero id is the
      synthetic core. */
  function AnchorKey(a: Anchor): (k: string)
    ensures k == "host-core" <==> a.id.None? || a.id.value == 0
    ensures a.id.Some? && a.id.value != 0 ==> k == NodeKey(a.id.value)
  {
    if a.id.Some? && a.id.value != 0 then NodeKey(a.id.value) else "host-core"
  }

  /** `r.node_id === node.id || (node.role === 'core' && !r.node_id)`. */
  predicate BelongsTo(r: Resource, a: Anchor): (yes: bool)
    ensures a.role == "core" && r.nodeId.None? ==> yes
    ensures a.role != "core" && a.id.Some? ==> (yes <==> r.nodeId == Some(a.id.value as int))
  {
    || (if a.id.None? then r.nodeId.None? else r.nodeId == Some(a.id.value as int))
    || (a.role == "core" && (r.nodeId.None? || r.nodeId == Some(0)))
  }

  /** `nodeResources`: the visible resources of one entry. */
  function Attached(visible: seq<Resource>, a: Anchor): seq<Resource> {
    Filter(visible, r => BelongsTo(r, a))
  }

  function LeafOf(r: Resource): Element {
    Leaf(ResourceKey(r), r.name, r.status, r.kind)
  }

  /** The edge from a host to one of its resources: animated while the
      resource runs. */
  function ResourceLink(r: Resource, hostKey: string): Link {
    Link("edge-" + ResourceKey(r), hostKey, ResourceKey(r), IsRunningLike(r.status))
  }

  /** One resource node per resource, in order. */
  function LeafList(rs: seq<Resource>): (r: seq<Element>)
    ensures |r| == |rs|
    decreases |rs|
  {
    if rs == [] then [] else LeafList(rs[..|rs| - 1]) + [LeafOf(rs[|rs| - 1])]
  }

  /** One edge from the host per resource, in order. */
  function LinkList(rs: seq<Resource>, hostKey: string): (r: seq<Link>)
    ensures |r| == |rs|
    decreases |rs|
  {
    if rs == [] then [] else LinkList(rs[..|rs| - 1], hostKey) + [ResourceLink(rs[|rs| - 1], hostKey)]
  }

  /** The resource nodes of one entry: none unless its host is expanded. */
  function LeavesOf(visible: seq<Resource>, a: Anchor, expanded: Expansion): seq<Element> {
    if Expanded(expanded, AnchorKey(a)) then LeafList(Attached(visible, a)) else []
  }

  function LinksOf(visible: seq<Resource>, a: Anchor, expanded: Expansion): seq<Link> {
    if Expanded(expanded, AnchorKey(a)) then LinkList(Attached(visible, a), AnchorKey(a)) else []
  }

  /** The resource nodes of the entries, in order. */
  function Leaves(visible: seq<Resource>, anchors: seq<Anchor>, expanded: Expansion): seq<Element>
    decreases |anchors|
  {
    if anchors == [] then []
    else Leaves(visible, anchors[..|anchors| - 1], expanded) + LeavesOf(visible, anchors[|anchors| - 1], expanded)
  }

  function ResourceLinks(visible: seq<Resource>, anchors: seq<Anchor>, expanded: Expansion): seq<Link>
    decreases |anchors|
  {
    if anchors == [] then []
    else ResourceLinks(visible, anchors[..|anchors| - 1], expanded) + LinksOf(visible, anchors[|anchors| - 1], expanded)
  }

  // ---------------------------------------------------------------------
  // The whole graph

  function GraphElements(rs: seq<Resource>, cluster: seq<Node>, expanded: Expansion, term: string): seq<Element> {
    [CoreHost(cluster, expanded)] + Hosts(Others(cluster), expanded) +
      Leaves(Visible(rs, term), Anchors(cluster), expanded)
  }

  function GraphLinks(rs: seq<Resource>, cluster: seq<Node>, expanded: Expansion, term: string): seq<Link> {
    CoreLinks(Others(cluster), CoreKey(cluster)) + ResourceLinks(Visible(rs, term), Anchors(cluster), expanded)
  }

  /** `createGraph` (src/pages/NetworkMap.tsx:177-274): the core host, then
      one host and one edge per other node, then, entry by entry, the
      resources of every expanded host with their edges. */
  method CreateGraph(rs: seq<Resource>, cluster: seq<Node>, expanded: Expansion, term: string)
    returns (nodes: seq<Element>, edges: seq<Link>)
    ensures nodes == GraphElements(rs, cluster, expanded, term)
    ensures edges == GraphLinks(rs, cluster, expanded, term)
  {
    var visible := Visible(rs, term);
    var hosts, coreLinks := AddHosts(cluster, expanded);
    var leaves, links := AddResources(visible, Anchors(cluster), expanded);
    nodes := hosts + leaves;
    edges := coreLinks + links;
  }

  /** The host loop (src/pages/NetworkMap.tsx:201-226). */
  method AddHosts(cluster: seq<Node>, expanded: Expansion) returns (nodes: seq<Element>, edges: seq<Link>)
    ensures nodes == [CoreHost(cluster, expanded)] + Hosts(Others(cluster), expanded)
    ensures edges == CoreLinks(Others(cluster), CoreKey(cluster))
  {
    var coreKey := CoreKey(cluster);
    var others := Others(cluster);
    var hosts: seq<Element> := [];
    edges := [];
    for idx := 0 to |others|
      invariant hosts == Hosts(others[..idx], expanded)
      invariant edges == CoreLinks(others[..idx], coreKey)
    {
      HostStep(others, expanded, coreKey, idx);
      hosts := hosts + [HostOf(others[idx], expanded)];
      edges := edges + [CoreLink(others[idx], coreKey)];
    }
    assert others[..|others|] == others;
    nodes := [CoreHost(cluster, expanded)] + hosts;
  }

  /** The resource loop (src/pages/NetworkMap.tsx:228-270). */
  method AddResources(visible: seq<Resource>, anchors: seq<Anchor>, expanded: Expansion)
    returns (nodes: seq<Element>, edges: seq<Link>)
    ensures nodes == Leaves(visible, anchors, expanded)
    ensures edges == ResourceLinks(visible, anchors, expanded)
  {
    nodes, edges := [], [];
    for k := 0 to |anchors|
      invariant nodes == Leaves(visible, anchors[..k], expanded)
      invariant edges == ResourceLinks(visible, anchors[..k], expanded)
    {
      EntryStep(visible, anchors, expanded, k);
      var hostKey := AnchorKey(anchors[k]);
      if Expanded(expanded, hostKey) {
        var leaves, links := AddEntry(Attached(visible, anchors[k]), hostKey);
        nodes := nodes + leaves;
        edges := edges + links;
      }
    }
    assert anchors[..|anchors|] == anchors;
  }

  /** The resources of one expanded host and their edges
      (src/pages/NetworkMap.tsx:237-269). */
  method AddEntry(mine: seq<Resource>, hostKey: string) returns (leaves: seq<Element>, links: seq<Link>)
    ensures leaves == LeafList(mine)
    ensures links == LinkList(mine, hostKey)
  {
    leaves, links := [], [];
    for j := 0 to |mine|
      invariant leaves == LeafList(mine[..j])
      invariant links == LinkList(mine[..j], hostKey)
    {
      LeafStep(mine, hostKey, j);
      leaves := leaves + [LeafOf(mine[j])];
      links := links + [ResourceLink(mine[j], hostKey)];
    }
    assert mine[..|mine|] == mine;
  }

  /** One step of the host loop. */
  lemma HostStep(ns: seq<Node>, expanded: Expansion, coreKey: string, i: nat)
    requires i < |ns|
    ensures Hosts(ns[..i + 1], expanded) == Hosts(ns[..i], expanded) + [HostOf(ns[i], expanded)]
    ensures CoreLinks(ns[..i + 1], coreKey) == CoreLinks(ns[..i], coreKey) + [CoreLink(ns[i], coreKey)]
  {
    assert ns[..i + 1][..i] == ns[..i];
  }

  /** One step of the loop over one entry's resources. */
  lemma LeafStep(rs: seq<Resource>, hostKey: string, j: nat)
    requires j < |rs|
    ensures LeafList(rs[..j + 1]) == LeafList(rs[..j]) + [LeafOf(rs[j])]
    ensures LinkList(rs[..j + 1], hostKey) == LinkList(rs[..j], hostKey) + [ResourceLink(rs[j], hostKey)]
  {
    assert rs[..j + 1][..j] == rs[..j];
  }

  lemma {:induction false} HostsAt(ns: seq<Node>, expanded: Expansion)
    ensures forall i :: 0 <= i < |ns| ==> Hosts(ns, expanded)[i] == HostOf(ns[i], expanded)
    decreases |ns|
  {
    if ns != [] {
      HostsAt(ns[..|ns| - 1], expanded);
    }
  }

  lemma {:induction false} CoreLinksAt(ns: seq<Node>, coreKey: string)
    ensures forall i :: 0 <= i < |ns| ==> CoreLinks(ns, coreKey)[i] == CoreLink(ns[i], coreKey)
    decreases |ns|
  {
    if ns != [] {
      CoreLinksAt(ns[..|ns| - 1], coreKey);
    }
  }

  lemma {:induction false} LeafListAt(rs: seq<Resource>)
    ensures forall j :: 0 <= j < |rs| ==> LeafList(rs)[j] == LeafOf(rs[j])
    decreases |rs|
  {
    if rs != [] {
      LeafListAt(rs[..|rs| - 1]);
    }
  }

  lemma {:induction false} LinkListAt(rs: seq<Resource>, hostKey: string)
    ensures forall j :: 0 <= j < |rs| ==> LinkList(rs, hostKey)[j] == ResourceLink(rs[j], hostKey)
    decreases |rs|
  {
    if rs != [] {
      LinkListAt(rs[..|rs| - 1], hostKey);
    }
  }

  /** One more entry adds its resources after those of the earlier ones. */
  lemma EntryStep(visible: seq<Resource>, anchors: seq<Anchor>, expanded: Expansion, k: nat)
    requires k < |anchors|
    ensures Leaves(visible, anchors[..k + 1], expanded) ==
      Leaves(visible, anchors[..k], expanded) + LeavesOf(visible, anchors[k], expanded)
    ensures ResourceLinks(visible, anchors[..k + 1], expanded) ==
      ResourceLinks(visible, anchors[..k], expanded) + LinksOf(visible, anchors[k], expanded)
  {
    assert anchors[..k + 1][..k] == anchors[..k];
  }

  // ---------------------------------------------------------------------
  // Properties of the graph

  /** The graph opens with the core host and one host per node that is not
      `core`, in cluster order; everything after them is a resource. */
  lemma HostsFirst(rs: seq<Resource>, cluster: seq<Node>, expanded: Expansion, term: string)
    ensures var g := GraphElements(rs, cluster, expanded, term);
      var others := Others(cluster);
      |g| >= 1 + |others| && g[0] == CoreHost(cluster, expanded) &&
      (forall i :: 0 <= i < |others| ==> g[1 + i] == HostOf(others[i], expanded)) &&
      (forall i :: 1 + |others| <= i < |g| ==> g[i].Leaf?)
    ensures forall n :: n in cluster && n.role != "core" ==> HostOf(n, expanded) in GraphElements(rs, cluster, expanded, term)
  {
    var others := Others(cluster);
    var hosts := Hosts(others, expanded);
    var leaves := Leaves(Visible(rs, term), Anchors(cluster), expanded);
    HostsAt(others, expanded);
    LeavesAreLeaves(Visible(rs, term), Anchors(cluster), expanded);
    Concat3(CoreHost(cluster, expanded), hosts, leaves);
    forall n | n in cluster && n.role != "core"
      ensures HostOf(n, expanded) in GraphElements(rs, cluster, expanded, term)
    {
      InOthers(cluster, n);
      var i :| 0 <= i < |others| && others[i] == n;
      assert GraphElements(rs, cluster, expanded, term)[1 + i] == hosts[i];
    }
  }

  /** Where the three parts of a graph list sit. */
  lemma Concat3<T>(c: T, xs: seq<T>, ys: seq<T>)
    ensures |[c] + xs + ys| == 1 + |xs| + |ys| && ([c] + xs + ys)[0] == c
    ensures forall i :: 0 <= i < |xs| ==> ([c] + xs + ys)[1 + i] == xs[i]
    ensures forall i :: 1 + |xs| <= i < 1 + |xs| + |ys| ==> ([c] + xs + ys)[i] == ys[i - 1 - |xs|]
  {
  }

  /** A node whose role is not `core` is one of the other hosts. */
  lemma InOthers(cluster: seq<Node>, n: Node)
    requires n in cluster && n.role != "core"
    ensures n in Others(cluster)
  {
    var k :| 0 <= k < |cluster| && cluster[k] == n;
  }

  /** Distinct ids stay distinct among the other hosts. */
  lemma OthersDistinct(cluster: seq<Node>)
    requires forall i, j :: 0 <= i < j < |cluster| ==> cluster[i].id != cluster[j].id
    ensures forall i, j :: 0 <= i < j < |Others(cluster)| ==> Others(cluster)[i].id != Others(cluster)[j].id
  {
    FilterPairwise(cluster, (n: Node) => n.role != "core", (a: Node, b: Node) => a.id != b.id);
  }

  lemma {:induction false} LeavesAreLeaves(visible: seq<Resource>, anchors: seq<Anchor>, expanded: Expansion)
    ensures forall e :: e in Leaves(visible, anchors, expanded) ==> e.Leaf?
    decreases |anchors|
  {
    if anchors != [] {
      var init, a := anchors[..|anchors| - 1], anchors[|anchors| - 1];
      LeavesAreLeaves(visible, init, expanded);
      LeafListAt(Attached(visible, a));
    }
  }

  /** Resource edges end at resource keys, which never look like a host's. */
  lemma {:induction false} ResourceLinksEndAtResources(visible: seq<Resource>, anchors: seq<Anchor>, expanded: Expansion)
    ensures forall l :: l in ResourceLinks(visible, anchors, expanded) ==>
      l.target != [] && l.target[0] in {'v', 'c', 'j'}
    decreases |anchors|
  {
    if anchors != [] {
      var init, a := anchors[..|anchors| - 1], anchors[|anchors| - 1];
      ResourceLinksEndAtResources(visible, init, expanded);
      LinkListAt(Attached(visible, a), AnchorKey(a));
    }
  }

  lemma NodeKeyInjective(a: nat, b: nat)
    ensures NodeKey(a) == NodeKey(b) ==> a == b
  {
    if NodeKey(a) == NodeKey(b) {
      PrefixedInjective("node-", a, b);
    }
  }

  /** With distinct node ids, every node that is not `core` is the target of
      exactly one edge, and it comes from the core host. */
  lemma OneCoreEdgePerHost(rs: seq<Resource>, cluster: seq<Node>, expanded: Expansion, term: string, n: Node)
    requires forall i, j :: 0 <= i < j < |cluster| ==> cluster[i].id != cluster[j].id
    requires n in cluster && n.role != "core"
    ensures var es := GraphLinks(rs, cluster, expanded, term);
      exists i :: 0 <= i < |es| && es[i].target == NodeKey(n.id) && es[i].source == CoreKey(cluster) &&
        forall j :: 0 <= j < |es| && j != i ==> es[j].target != NodeKey(n.id)
  {
    var others := Others(cluster);
    var ck := CoreKey(cluster);
    var core := CoreLinks(others, ck);
    var leafLinks := ResourceLinks(Visible(rs, term), Anchors(cluster), expanded);
    var es := GraphLinks(rs, cluster, expanded, term);
    assert es == core + leafLinks;
    OthersDistinct(cluster);
    InOthers(cluster, n);
    var i :| 0 <= i < |others| && others[i] == n;
    CoreLinksDistinct(others, ck, i);
    ResourceLinksEndAtResources(Visible(rs, term), Anchors(cluster), expanded);
    OnlyTarget(core, leafLinks, i, NodeKey(n.id));
    assert es[i] == CoreLink(n, ck);
    assert es[i].target == NodeKey(n.id) && es[i].source == ck;
  }

  /** Among the core edges of hosts with distinct ids, the `i`-th is the only
      one into the `i`-th host. */
  lemma CoreLinksDistinct(ns: seq<Node>, coreKey: string, i: nat)
    requires forall a, b :: 0 <= a < b < |ns| ==> ns[a].id != ns[b].id
    requires i < |ns|
    ensures CoreLinks(ns, coreKey)[i] == CoreLink(ns[i], coreKey)
    ensures forall j :: 0 <= j < |ns| && j != i ==> CoreLinks(ns, coreKey)[j].target != NodeKey(ns[i].id)
  {
    CoreLinksAt(ns, coreKey);
    forall j | 0 <= j < |ns| && j != i ensures CoreLinks(ns, coreKey)[j].target != NodeKey(ns[i].id) {
      assert ns[j].id != ns[i].id;
      NodeKeyInjective(ns[j].id, ns[i].id);
    }
  }

  /** A host key is the target of no resource edge, so the `i`-th core edge
      stays its only edge once the resource edges follow. */
  lemma OnlyTarget(core: seq<Link>, leafLinks: seq<Link>, i: nat, t: string)
    requires i < |core| && t != [] && t[0] == 'n'
    requires forall j :: 0 <= j < |core| && j != i ==> core[j].target != t
    requires forall l :: l in leafLinks ==> l.target != [] && l.target[0] in {'v', 'c', 'j'}
    ensures forall j :: 0 <= j < |core + leafLinks| && j != i ==> (core + leafLinks)[j].target != t
  {
    forall j | 0 <= j < |core + leafLinks| && j != i ensures (core + leafLinks)[j].target != t {
      if j >= |core| {
        assert (core + leafLinks)[j] in leafLinks;
      }
    }
  }

  /** Different resources have different keys. */
  lemma KeyInjective(x: Resource, y: Resource)
    requires ResourceKey(x) == ResourceKey(y)
    ensures x.kind == y.kind && x.id == y.id
  {
    assert ResourceKey(x)[0] == TypeName(x.kind)[0] && ResourceKey(y)[0] == TypeName(y.kind)[0];
    assert x.kind == y.kind;
    PrefixedInjective(TypeName(x.kind) + "-", x.id, y.id);
  }

  /** Every visible resource of an entry whose host is expanded is drawn,
      with an edge from that host. */
  lemma {:induction false} LeafPresent(visible: seq<Resource>, anchors: seq<Anchor>, expanded: Expansion, r: Resource, a: Anchor)
    requires r in visible && a in anchors && Expanded(expanded, AnchorKey(a)) && BelongsTo(r, a)
    ensures LeafOf(r) in Leaves(visible, anchors, expanded)
    ensures ResourceLink(r, AnchorKey(a)) in ResourceLinks(visible, anchors, expanded)
    decreases |anchors|
  {
    var init, last := anchors[..|anchors| - 1], anchors[|anchors| - 1];
    if a == last {
      var mine := Attached(visible, a);
      LeafListAt(mine);
      LinkListAt(mine, AnchorKey(a));
      var k :| 0 <= k < |visible| && visible[k] == r;
      var j :| 0 <= j < |mine| && mine[j] == r;
      assert LeafList(mine)[j] == LeafOf(r);
      assert LinkList(mine, AnchorKey(a))[j] == ResourceLink(r, AnchorKey(a));
    } else {
      var k :| 0 <= k < |anchors| && anchors[k] == a;
      assert init[k] == a;
      LeafPresent(visible, init, expanded, r, a);
    }
  }

  /** Every drawn resource is visible and belongs to an entry whose host is
      expanded. */
  lemma {:induction false} LeafSource(visible: seq<Resource>, anchors: seq<Anchor>, expanded: Expansion, e: Element)
    requires e in Leaves(visible, anchors, expanded)
    ensures exists r, a :: r in visible && a in anchors && Expanded(expanded, AnchorKey(a)) && BelongsTo(r, a) && e == LeafOf(r)
    decreases |anchors|
  {
    var init, last := anchors[..|anchors| - 1], anchors[|anchors| - 1];
    if e in Leaves(visible, init, expanded) {
      LeafSource(visible, init, expanded, e);
      var r, a :| r in visible && a in init && Expanded(expanded, AnchorKey(a)) && BelongsTo(r, a) && e == LeafOf(r);
      assert a in anchors;
    } else {
      var mine := Attached(visible, last);
      LeafListAt(mine);
      var j :| 0 <= j < |mine| && LeafList(mine)[j] == e;
      assert mine[j] in visible && BelongsTo(mine[j], last);
    }
  }

  /** Every edge to a resource comes from an expanded host the resource
      belongs to, carries the id `edge-` plus the resource's key, and is
      animated exactly while the resource runs. */
  lemma {:induction false} LinkSource(visible: seq<Resource>, anchors: seq<Anchor>, expanded: Expansion, l: Link)
    requires l in ResourceLinks(visible, anchors, expanded)
    ensures exists r, a :: (r in visible && a in anchors && Expanded(expanded, AnchorKey(a)) && BelongsTo(r, a) &&
      l.source == AnchorKey(a) && l.target == ResourceKey(r) && l.id == "edge-" + ResourceKey(r) &&
      (l.animated <==> IsRunningLike(r.status)))
    decreases |anchors|
  {
    var init, last := anchors[..|anchors| - 1], anchors[|anchors| - 1];
    if l in ResourceLinks(visible, init, expanded) {
      LinkSource(visible, init, expanded, l);
      var r, a :| r in visible && a in init && Expanded(expanded, AnchorKey(a)) && BelongsTo(r, a) &&
        l.source == AnchorKey(a) && l.target == ResourceKey(r) && l.id == "edge-" + ResourceKey(r) &&
        (l.animated <==> IsRunningLike(r.status));
      assert a in anchors;
    } else {
      var mine := Attached(visible, last);
      LinkListAt(mine, AnchorKey(last));
      var j :| 0 <= j < |mine| && LinkList(mine, AnchorKey(last))[j] == l;
      assert mine[j] in visible && BelongsTo(mine[j], last);
    }
  }

  /** Core-to-host edges are never animated. */
  lemma CoreLinksStill(rs: seq<Resource>, cluster: seq<Node>, expanded: Expansion, term: string)
    ensures forall i :: 0 <= i < |Others(cluster)| ==> !GraphLinks(rs, cluster, expanded, term)[i].animated
  {
    CoreLinksAt(Others(cluster), CoreKey(cluster));
  }

  /** Without a `core` node, as on a freshly seeded database whose main node
      has role `main`, the management plane is the synthetic `host-core`
      host and every cluster node gets a host under it. */
  lemma NoCoreNode(rs: seq<Resource>, cluster: seq<Node>, expanded: Expansion, term: string)
    requires forall i :: 0 <= i < |cluster| ==> cluster[i].role != "core"
    ensures CoreKey(cluster) == "host-core" && CoreLabel(cluster) == "CloudBSD Core"
    ensures Others(cluster) == cluster
  {
    FilterKeepsAll(cluster, (n: Node) => n.role != "core");
  }

  // ---------------------------------------------------------------------
  // The expansion map

  /** The update in `fetchData` (src/pages/NetworkMap.tsx:130-137): every
      node's key that is absent becomes `true`; present keys keep their
      value. */
  function InitExpansion(prev: Expansion, ns: seq<Node>): (r: Expansion)
    ensures r.Keys == prev.Keys + NodeKeys(ns)
    ensures forall k :: k in prev ==> r[k] == prev[k]
    ensures forall k :: k in r && k !in prev ==> r[k]
    decreases |ns|
  {
    if ns == [] then prev
    else
      var key := NodeKey(ns[0].id);
      var next := if key in prev then prev else prev[key := true];
      NodeKeysFirst(ns);
      InitExpansion(next, ns[1..])
  }

  /** The keys of the nodes' hosts. */
  function NodeKeys(ns: seq<Node>): set<string> {
    set n | n in ns :: NodeKey(n.id)
  }

  /** The keys of a non-empty node list: the first node's and the rest's. */
  lemma NodeKeysFirst(ns: seq<Node>)
    requires ns != []
    ensures NodeKeys(ns) == {NodeKey(ns[0].id)} + NodeKeys(ns[1..])
  {
    assert ns == [ns[0]] + ns[1..];
  }

  /** Initialising twice changes nothing more. */
  lemma InitExpansionIdempotent(prev: Expansion, ns: seq<Node>)
    ensures InitExpansion(InitExpansion(prev, ns), ns) == InitExpansion(prev, ns)
  {
    var once := InitExpansion(prev, ns);
    var twice := InitExpansion(once, ns);
    assert twice.Keys == once.Keys;
    forall k | k in once ensures twice[k] == once[k] { }
  }

  /** `toggleNodeExpand` (src/pages/NetworkMap.tsx:149-154). */
  function Toggle(prev: Expansion, key: string): (r: Expansion)
    ensures Expanded(r, key) == !Expanded(prev, key)
    ensures r.Keys == prev.Keys + {key}
    ensures forall k :: k in prev && k != key ==> r[k] == prev[k]
  {
    prev[key := !Expanded(prev, key)]
  }

  /** Toggling twice restores what every host shows. */
  lemma ToggleTwice(prev: Expansion, key: string)
    ensures forall k :: Expanded(Toggle(Toggle(prev, key), key), k) == Expanded(prev, k)
  {
  }
}
