/**
 * The constellation graph shared by script.js and src/components/ConstellationMap.js: groups of
 * nodes and links, the global node lookup `findNodeById`, the per-group `nodeMap`, the link pass
 * that turns every link into one line segment, and the group lookup of `selectNode`.
 */
module Graph {
  import opened Wrappers

  datatype Subpage = Subpage(id: string, title: string)

  /** A node; `difficulty` is None when the literal omits it. */
  datatype Node = Node(id: string, name: string, x: int, y: int, difficulty: Option<int>,
                       subpages: seq<Subpage>)

  datatype Link = Link(source: string, target: string)

  /** One entry of the `constellationData` object; `key` is its property name. */
  datatype Group = Group(key: string, name: string, color: string, nodes: seq<Node>, links: seq<Link>)

  datatype Point = Point(x: int, y: int)

  /** The object `{ x: 0, y: 0 }` that `findNodeById` returns for an unknown id. */
  const Origin := Point(0, 0)

  /** A drawn link: the index of the group it is appended to and its two end points. */
  datatype Line = Line(group: nat, from: Point, to: Point)

  function Position(n: Node): Point {
    Point(n.x, n.y)
  }

  function NodeIds(nodes: seq<Node>): (ids: seq<string>)
    ensures |ids| == |nodes|
    ensures forall k :: 0 <= k < |nodes| ==> ids[k] == nodes[k].id
  {
    seq(|nodes|, k requires 0 <= k < |nodes| => nodes[k].id)
  }

  function Keys(groups: seq<Group>): (keys: seq<string>)
    ensures |keys| == |groups|
    ensures forall g :: 0 <= g < |groups| ==> keys[g] == groups[g].key
  {
    seq(|groups|, g requires 0 <= g < |groups| => groups[g].key)
  }

  /** The nodes of all groups, group by group in declaration order. */
  function AllNodes(groups: seq<Group>): seq<Node> {
    if |groups| == 0 then [] else groups[0].nodes + AllNodes(groups[1..])
  }

  /** Some group declares a node with this id. */
  predicate Declares(groups: seq<Group>, id: string) {
    id in NodeIds(AllNodes(groups))
  }

  /** Position k holds the first node, in sequence order, whose id is `id`. */
  predicate FirstWithId(nodes: seq<Node>, k: int, id: string) {
    0 <= k < |nodes| && nodes[k].id == id && forall j :: 0 <= j < k ==> nodes[j].id != id
  }

  /** Position k holds the last node whose id is that of nodes[k]. */
  predicate LastWithId(nodes: seq<Node>, k: int) {
    0 <= k < |nodes| && forall j :: k < j < |nodes| ==> nodes[j].id != nodes[k].id
  }

  /** `nodes.find(n => n.id === id)`: the first node with that id, if any. */
  function FindIn(nodes: seq<Node>, id: string): (r: Option<Node>)
    ensures r.None? <==> id !in NodeIds(nodes)
    ensures r.Some? ==> exists k :: FirstWithId(nodes, k, id) && nodes[k] == r.value
  {
    if |nodes| == 0 then None
    else if nodes[0].id == id then
      assert FirstWithId(nodes, 0, id);
      Some(nodes[0])
    else
      var r := FindIn(nodes[1..], id);
      assert NodeIds(nodes) == [nodes[0].id] + NodeIds(nodes[1..]);
      if r.Some? then
        var k :| FirstWithId(nodes[1..], k, id) && nodes[1..][k] == r.value;
        assert FirstWithId(nodes, k + 1, id);
        r
      else r
  }

  lemma AllNodesCons(groups: seq<Group>)
    requires |groups| > 0
    ensures AllNodes(groups) == groups[0].nodes + AllNodes(groups[1..])
    ensures NodeIds(AllNodes(groups)) == NodeIds(groups[0].nodes) + NodeIds(AllNodes(groups[1..]))
  {
  }

  /** The node ids of a four-group graph, group by group. */
  lemma AllNodeIds4(a: Group, b: Group, c: Group, d: Group)
    ensures NodeIds(AllNodes([a, b, c, d])) ==
      NodeIds(a.nodes) + NodeIds(b.nodes) + NodeIds(c.nodes) + NodeIds(d.nodes)
  {
    var g := [a, b, c, d];
    assert g[1..] == [b, c, d] && g[1..][1..] == [c, d] && g[1..][1..][1..] == [d];
    assert [d][1..] == [];
    AllNodesCons(g);
    AllNodesCons(g[1..]);
    AllNodesCons(g[1..][1..]);
    AllNodesCons(g[1..][1..][1..]);
    assert NodeIds([]) == [];
  }

  /**
   * The scan of `findNodeById` without its fallback: groups in declaration order, and within a
   * group `find`, returning at the first hit.
   */
  function FindNode(groups: seq<Group>, id: string): Option<Node> {
    if |groups| == 0 then None
    else
      match FindIn(groups[0].nodes, id)
      case Some(n) => Some(n)
      case None => FindNode(groups[1..], id)
  }

  /** The scan finds something exactly when some group declares the id, and then the first one. */
  lemma {:induction false} FindNodeSpec(groups: seq<Group>, id: string)
    ensures FindNode(groups, id).None? <==> !Declares(groups, id)
    ensures FindNode(groups, id).Some? ==>
      exists k :: FirstWithId(AllNodes(groups), k, id) && AllNodes(groups)[k] == FindNode(groups, id).value
  {
    if |groups| > 0 {
      AllNodesCons(groups);
      var all := AllNodes(groups);
      var first := groups[0].nodes;
      match FindIn(first, id)
      case Some(n) =>
        var k :| FirstWithId(first, k, id) && first[k] == n;
        assert FirstWithId(all, k, id);
      case None =>
        FindNodeSpec(groups[1..], id);
        var r := FindNode(groups[1..], id);
        if r.Some? {
          var k :| FirstWithId(AllNodes(groups[1..]), k, id) && AllNodes(groups[1..])[k] == r.value;
          assert FirstWithId(all, |first| + k, id);
        }
    }
  }

  /**
   * `findNodeById`: the position of the first node with this id, scanning the groups in
   * declaration order, or the origin when no group declares it.
   */
  function FindNodeById(groups: seq<Group>, id: string): Point {
    match FindNode(groups, id)
    case Some(n) => Position(n)
    case None => Origin
  }

  /** It never fails: an undeclared id gives the origin, a declared one its first node's position. */
  lemma FindNodeByIdSpec(groups: seq<Group>, id: string)
    ensures !Declares(groups, id) ==> FindNodeById(groups, id) == Origin
    ensures Declares(groups, id) ==>
      exists k :: FirstWithId(AllNodes(groups), k, id) && FindNodeById(groups, id) == Position(AllNodes(groups)[k])
  {
    FindNodeSpec(groups, id);
  }

  /** With globally unique ids, the lookup returns each declared node itself. */
  lemma FindNodeOfDeclared(groups: seq<Group>, k: nat)
    requires Distinct(NodeIds(AllNodes(groups)))
    requires k < |AllNodes(groups)|
    ensures FindNode(groups, AllNodes(groups)[k].id) == Some(AllNodes(groups)[k])
    ensures FindNodeById(groups, AllNodes(groups)[k].id) == Position(AllNodes(groups)[k])
  {
    var all := AllNodes(groups);
    var id := all[k].id;
    assert NodeIds(all)[k] == id;
    FindNodeSpec(groups, id);
    var r := FindNode(groups, id);
    var k' :| FirstWithId(all, k', id) && all[k'] == r.value;
    assert NodeIds(all)[k'] == NodeIds(all)[k];
  }

  /**
   * The `nodeMap` object a group's link pass builds: `nodeMap[node.id] = node` for each node in
   * order, so a later node with the same id replaces an earlier one.
   */
  function NodeMap(nodes: seq<Node>): map<string, Node> {
    if |nodes| == 0 then map[]
    else NodeMap(nodes[..|nodes| - 1])[nodes[|nodes| - 1].id := nodes[|nodes| - 1]]
  }

  /**
   * The map holds exactly the group's ids, each bound to a node with that id, and to the last
   * such node in the group's order.
   */
  lemma {:induction false} NodeMapSpec(nodes: seq<Node>)
    ensures forall id :: id in NodeMap(nodes) <==> id in NodeIds(nodes)
    ensures forall id :: id in NodeMap(nodes) ==> NodeMap(nodes)[id].id == id && NodeMap(nodes)[id] in nodes
    ensures forall k :: LastWithId(nodes, k) ==> NodeMap(nodes)[nodes[k].id] == nodes[k]
  {
    if |nodes| > 0 {
      var init := nodes[..|nodes| - 1];
      var last := nodes[|nodes| - 1];
      NodeMapSpec(init);
      assert NodeIds(nodes) == NodeIds(init) + [last.id];
      forall k | LastWithId(nodes, k)
        ensures NodeMap(nodes)[nodes[k].id] == nodes[k]
      {
        if k < |nodes| - 1 {
          assert LastWithId(init, k);
        }
      }
    }
  }

  /** The `forEach` that fills a group's `nodeMap`. */
  method BuildNodeMap(nodes: seq<Node>) returns (nodeMap: map<string, Node>)
    ensures nodeMap == NodeMap(nodes)
  {
    nodeMap := map[];
    var i := 0;
    while i < |nodes|
      invariant 0 <= i <= |nodes|
      invariant nodeMap == NodeMap(nodes[..i])
    {
      assert nodes[..i + 1][..i] == nodes[..i];
      nodeMap := nodeMap[nodes[i].id := nodes[i]];
      i := i + 1;
    }
    assert nodes[..|nodes|] == nodes;
  }

  /**
   * The coordinates a link end point is drawn at: from the owning group's `nodeMap` when the id
   * is there, otherwise from the global `findNodeById`.
   */
  function ResolveEndpoint(groups: seq<Group>, nodeMap: map<string, Node>, id: string): Point {
    if id in nodeMap then Position(nodeMap[id]) else FindNodeById(groups, id)
  }

  /** An end point declared in the link's own group gets that node's coordinates. */
  lemma ResolveInGroup(groups: seq<Group>, nodes: seq<Node>, k: nat)
    requires LastWithId(nodes, k)
    ensures ResolveEndpoint(groups, NodeMap(nodes), nodes[k].id) == Position(nodes[k])
  {
    NodeMapSpec(nodes);
  }

  /** An end point declared elsewhere gets the global lookup's coordinates. */
  lemma ResolveElsewhere(groups: seq<Group>, nodes: seq<Node>, id: string)
    requires id !in NodeIds(nodes)
    ensures ResolveEndpoint(groups, NodeMap(nodes), id) == FindNodeById(groups, id)
    ensures Declares(groups, id) ==>
      exists k :: FirstWithId(AllNodes(groups), k, id) &&
        ResolveEndpoint(groups, NodeMap(nodes), id) == Position(AllNodes(groups)[k])
  {
    NodeMapSpec(nodes);
    FindNodeByIdSpec(groups, id);
  }

  /** An end point declared nowhere is drawn at the origin. */
  lemma ResolveNowhere(groups: seq<Group>, nodes: seq<Node>, id: string)
    requires id !in NodeIds(nodes) && !Declares(groups, id)
    ensures ResolveEndpoint(groups, NodeMap(nodes), id) == Origin
  {
    NodeMapSpec(nodes);
    FindNodeByIdSpec(groups, id);
  }

  /** The line a link of group g is drawn as, given the group's node map. */
  function LinkLine(groups: seq<Group>, g: nat, nodeMap: map<string, Node>, link: Link): Line {
    Line(g, ResolveEndpoint(groups, nodeMap, link.source), ResolveEndpoint(groups, nodeMap, link.target))
  }

  /** The line drawn for a link owned by group g. */
  function LineFor(groups: seq<Group>, g: nat, link: Link): Line
    requires g < |groups|
  {
    LinkLine(groups, g, NodeMap(groups[g].nodes), link)
  }

  /** The number of links of all groups. */
  function LinkCount(groups: seq<Group>): nat {
    if |groups| == 0 then 0
    else LinkCount(groups[..|groups| - 1]) + |groups[|groups| - 1].links|
  }

  lemma LinkCountStep(groups: seq<Group>, g: nat)
    requires g < |groups|
    ensures LinkCount(groups[..g + 1]) == LinkCount(groups[..g]) + |groups[g].links|
  {
    assert groups[..g + 1][..g] == groups[..g];
  }

  /**
   * The link pass: for each group in declaration order, build its `nodeMap`, then append one
   * line per link in the group's order: exactly one line per link, group by group.
   */
  method DrawLinks(groups: seq<Group>) returns (lines: seq<Line>)
    ensures |lines| == LinkCount(groups)
    ensures LinesDrawn(groups, lines, |groups|)
  {
    lines := [];
    var g := 0;
    while g < |groups|
      invariant 0 <= g <= |groups|
      invariant |lines| == LinkCount(groups[..g])
      invariant LinesDrawn(groups, lines, g)
    {
      var nodeMap := BuildNodeMap(groups[g].nodes);
      ghost var prefix := lines;
      lines := DrawGroupLinks(groups, g, nodeMap, lines);
      LinesDrawnStep(groups, prefix, lines, g);
      g := g + 1;
    }
    assert groups[..|groups|] == groups;
  }

  lemma LinesDrawnStep(groups: seq<Group>, prefix: seq<Line>, lines: seq<Line>, g: nat)
    requires g < |groups|
    requires |prefix| == LinkCount(groups[..g]) && LinesDrawn(groups, prefix, g)
    requires |lines| == |prefix| + |groups[g].links|
    requires forall i :: 0 <= i < |prefix| ==> lines[i] == prefix[i]
    requires forall l :: 0 <= l < |groups[g].links| ==>
      lines[|prefix| + l] == LinkLine(groups, g, NodeMap(groups[g].nodes), groups[g].links[l])
    ensures |lines| == LinkCount(groups[..g + 1]) && LinesDrawn(groups, lines, g + 1)
  {
    LinkCountStep(groups, g);
    forall h | 0 <= h < g
      ensures GroupDrawn(groups, lines, h)
    {
      assert GroupDrawn(groups, prefix, h);
      var base := LinkCount(groups[..h]);
      forall l | 0 <= l < |groups[h].links|
        ensures lines[base + l] == LineFor(groups, h, groups[h].links[l])
      {
        assert lines[base + l] == prefix[base + l];
      }
    }
    forall l | 0 <= l < |groups[g].links|
      ensures lines[LinkCount(groups[..g]) + l] == LineFor(groups, g, groups[g].links[l])
    {
    }
    assert GroupDrawn(groups, lines, g);
  }

  /**
   * One link: look both end points up in the group's `nodeMap`, falling back to `findNodeById`
   * for an end point the group does not declare.
   */
  method DrawLink(groups: seq<Group>, g: nat, nodeMap: map<string, Node>, link: Link)
    returns (line: Line)
    ensures line == LinkLine(groups, g, nodeMap, link)
  {
    var sourceNode := if link.source in nodeMap then Some(nodeMap[link.source]) else None;
    var targetNode := if link.target in nodeMap then Some(nodeMap[link.target]) else None;
    var source := if sourceNode.Some? then Position(sourceNode.value) else FindNodeById(groups, link.source);
    var target := if targetNode.Some? then Position(targetNode.value) else FindNodeById(groups, link.target);
    line := Line(g, source, target);
  }

  /** The inner `forEach` of the link pass: append one line per link of group g. */
  method DrawGroupLinks(groups: seq<Group>, g: nat, nodeMap: map<string, Node>, lines: seq<Line>)
    returns (drawn: seq<Line>)
    requires g < |groups|
    ensures |drawn| == |lines| + |groups[g].links|
    ensures forall i :: 0 <= i < |lines| ==> drawn[i] == lines[i]
    ensures forall l :: 0 <= l < |groups[g].links| ==>
      drawn[|lines| + l] == LinkLine(groups, g, nodeMap, groups[g].links[l])
  {
    var links := groups[g].links;
    drawn := lines;
    var l := 0;
    while l < |links|
      invariant 0 <= l <= |links|
      invariant |drawn| == |lines| + l
      invariant forall i :: 0 <= i < |lines| ==> drawn[i] == lines[i]
      invariant forall l' :: 0 <= l' < l ==> drawn[|lines| + l'] == LinkLine(groups, g, nodeMap, links[l'])
    {
      var line := DrawLink(groups, g, nodeMap, links[l]);
      drawn := drawn + [line];
      l := l + 1;
    }
  }

  /** Lines drawn for groups 0 .. g-1. */
  ghost predicate LinesDrawn(groups: seq<Group>, lines: seq<Line>, g: nat)
    requires g <= |groups|
  {
    forall h :: 0 <= h < g ==> GroupDrawn(groups, lines, h)
  }

  /**
   * Link l of group h is line number LinkCount(groups[..h]) + l, drawn between its resolved
   * end points.
   */
  ghost predicate GroupDrawn(groups: seq<Group>, lines: seq<Line>, h: nat)
    requires h < |groups|
  {
    && LinkCount(groups[..h]) + |groups[h].links| <= |lines|
    && forall l :: 0 <= l < |groups[h].links| ==>
         lines[LinkCount(groups[..h]) + l] == LineFor(groups, h, groups[h].links[l])
  }

  /** Group g holds a node with this id and no later group does. */
  predicate LastHolding(groups: seq<Group>, g: int, id: string) {
    && 0 <= g < |groups|
    && id in NodeIds(groups[g].nodes)
    && forall h :: g < h < |groups| ==> id !in NodeIds(groups[h].nodes)
  }

  /**
   * The group lookup of `selectNode`: a `forEach` over the groups with no early exit, so the
   * result is the key of the LAST group, in declaration order, holding a node with this id, or
   * None when no group does.
   */
  method FindNodeConstellation(groups: seq<Group>, id: string) returns (found: Option<string>)
    ensures found.None? <==> forall g :: 0 <= g < |groups| ==> id !in NodeIds(groups[g].nodes)
    ensures found.Some? ==> exists g :: LastHolding(groups, g, id) && groups[g].key == found.value
  {
    found := None;
    ghost var at := -1;
    var g := 0;
    while g < |groups|
      invariant 0 <= g <= |groups|
      invariant found.None? <==> forall h :: 0 <= h < g ==> id !in NodeIds(groups[h].nodes)
      invariant found.Some? ==>
        && 0 <= at < g && groups[at].key == found.value
        && id in NodeIds(groups[at].nodes)
        && forall h :: at < h < g ==> id !in NodeIds(groups[h].nodes)
    {
      if id in NodeIds(groups[g].nodes) {
        found := Some(groups[g].key);
        at := g;
      }
      g := g + 1;
    }
  }

  /** A node is declared by the group list exactly when some group's `nodes.some` finds it. */
  lemma {:induction false} DeclaresSomeGroup(groups: seq<Group>, id: string)
    ensures Declares(groups, id) <==> exists g :: 0 <= g < |groups| && id in NodeIds(groups[g].nodes)
  {
    if |groups| > 0 {
      AllNodesCons(groups);
      DeclaresSomeGroup(groups[1..], id);
      assert forall g :: 1 <= g < |groups| ==> groups[1..][g - 1] == groups[g];
      if Declares(groups[1..], id) {
        var g :| 0 <= g < |groups[1..]| && id in NodeIds(groups[1..][g].nodes);
        assert id in NodeIds(groups[g + 1].nodes);
      }
    }
  }

  /**
   * The first |nodes| - 1 links of the group join each node to the next one, in the listed order
   * of the nodes; any further links are free.
   */
  predicate ChainsNodes(group: Group) {
    && |group.links| + 1 >= |group.nodes|
    && forall l :: 0 <= l < |group.nodes| - 1 ==>
         group.links[l] == Link(group.nodes[l].id, group.nodes[l + 1].id)
  }

  /** The links of the group are exactly the chain through its nodes. */
  predicate LinksFormPath(group: Group) {
    |group.links| + 1 == |group.nodes| && ChainsNodes(group)
  }

  /**
   * In a group whose node ids are distinct, every link of the chain is drawn from one node to the
   * next inside the group, never through the global fallback.
   */
  lemma PathLines(groups: seq<Group>, g: nat)
    requires g < |groups|
    requires Distinct(NodeIds(groups[g].nodes)) && ChainsNodes(groups[g])
    ensures forall l :: 0 <= l < |groups[g].nodes| - 1 ==>
      LineFor(groups, g, groups[g].links[l])
        == Line(g, Position(groups[g].nodes[l]), Position(groups[g].nodes[l + 1]))
  {
    var nodes := groups[g].nodes;
    forall l | 0 <= l < |nodes| - 1
      ensures LineFor(groups, g, groups[g].links[l]) == Line(g, Position(nodes[l]), Position(nodes[l + 1]))
    {
      assert LastWithId(nodes, l) by {
        forall j | l < j < |nodes| ensures nodes[j].id != nodes[l].id {
          assert NodeIds(nodes)[j] != NodeIds(nodes)[l];
        }
      }
      assert LastWithId(nodes, l + 1) by {
        forall j | l + 1 < j < |nodes| ensures nodes[j].id != nodes[l + 1].id {
          assert NodeIds(nodes)[j] != NodeIds(nodes)[l + 1];
        }
      }
      ResolveInGroup(groups, nodes, l);
      ResolveInGroup(groups, nodes, l + 1);
    }
  }

  /** An id that no group holds is not declared, and `findNodeById` answers the origin for it. */
  lemma HeldNowhere(groups: seq<Group>, id: string)
    requires forall g :: 0 <= g < |groups| ==> id !in NodeIds(groups[g].nodes)
    ensures !Declares(groups, id) && FindNodeById(groups, id) == Origin
  {
    DeclaresSomeGroup(groups, id);
    FindNodeByIdSpec(groups, id);
  }

  /**
   * A link of group g from a node declared elsewhere to the group's first node: it is drawn from
   * the global lookup's answer to that node's position.
   */
  lemma CrossGroupLine(groups: seq<Group>, g: nat, source: string)
    requires g < |groups| && |groups[g].nodes| > 0
    requires source !in NodeIds(groups[g].nodes)
    requires forall j :: 0 < j < |groups[g].nodes| ==> groups[g].nodes[j].id != groups[g].nodes[0].id
    ensures LineFor(groups, g, Link(source, groups[g].nodes[0].id))
      == Line(g, FindNodeById(groups, source), Position(groups[g].nodes[0]))
  {
    ResolveElsewhere(groups, groups[g].nodes, source);
    ResolveInGroup(groups, groups[g].nodes, 0);
  }
}
