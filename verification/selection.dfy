/**
 * The page state of script.js: the sidebar sections and links built by `initializeNavigation`,
 * the node elements of the map, the constellation groups and the info panel, and the two things
 * that change them: clicking a section title and `selectNode`.
 */
module Selection {
  import opened Wrappers
  import opened Graph
  import opened NavigationData

  /** An entry of `nodeContent`: the info panel's title and its HTML body. */
  datatype Content = Content(title: string, html: string)

  /** What the info panel shows for a node without an entry in `nodeContent`. */
  const Placeholder := Content("Content Coming Soon",
    "<p>Detailed information for this topic is currently being developed.</p>")

  /** `nodeContent[nodeId] || placeholder`. */
  function ContentFor(nodeContent: map<string, Content>, id: string): Content {
    if id in nodeContent then nodeContent[id] else Placeholder
  }

  /** One `.nav-link` element: its `data-id` and the index of the `.nav-section` holding it. */
  datatype NavLink = NavLink(id: string, section: nat)

  /**
   * The links `initializeNavigation` creates, section by section: one per item, carrying the
   * item's id and its section's index.
   */
  function NavLinks(sections: seq<Section>): (links: seq<NavLink>)
    ensures |links| == |Flatten(sections)|
    ensures forall i :: 0 <= i < |links| ==>
      links[i].id == Flatten(sections)[i].id && links[i].section < |sections|
  {
    if |sections| == 0 then []
    else
      var n := |sections| - 1;
      NavLinks(sections[..n]) + seq(|sections[n].items|, i requires 0 <= i < |sections[n].items| =>
        NavLink(sections[n].items[i].id, n))
  }

  /** Item i of section k is link number ItemCount(sections[..k]) + i, and it sits in section k. */
  lemma {:induction false} NavLinksAt(sections: seq<Section>, k: nat, i: nat)
    requires k < |sections| && i < |sections[k].items|
    ensures ItemCount(sections[..k]) + i < |NavLinks(sections)|
    ensures NavLinks(sections)[ItemCount(sections[..k]) + i] == NavLink(sections[k].items[i].id, k)
  {
    var n := |sections| - 1;
    var init := sections[..n];
    FlattenLength(init);
    FlattenLength(sections);
    if k == n {
      assert init == sections[..k];
    } else {
      NavLinksAt(init, k, i);
      assert init[..k] == sections[..k];
    }
  }

  /** Some link with this `data-id` lies in section s. */
  ghost predicate LinkedSection(links: seq<NavLink>, s: nat, id: string) {
    exists i :: 0 <= i < |links| && links[i].id == id && links[i].section == s
  }

  class Page {
    const groups: seq<Group>
    const sectionCount: nat
    const links: seq<NavLink>
    const nodeContent: map<string, Content>
    /** Per `.nav-section`: has the class `open`. */
    var open: seq<bool>
    /** Per `.nav-link`: has the class `active`. */
    var active: seq<bool>
    /** Per `.node`, in the order the nodes are drawn: has the class `selected`. */
    var selected: seq<bool>
    /** Per `.constellation-group`: has the class `dim`. */
    var dim: seq<bool>
    /** The info panel's content; None until the first selection. */
    var info: Option<Content>

    ghost predicate Valid()
      reads this
    {
      && |open| == sectionCount
      && |active| == |links|
      && |selected| == |AllNodes(groups)|
      && |dim| == |groups|
      && (forall i :: 0 <= i < |links| ==> links[i].section < sectionCount)
      && Distinct(Keys(groups))
    }

    /**
     * The page after `initializeNavigation` and the drawing of the map: one link per navigation
     * item, only the first section open, nothing active, selected or dimmed.
     */
    constructor (groups: seq<Group>, sections: seq<Section>, nodeContent: map<string, Content>)
      requires |sections| > 0
      requires Distinct(Keys(groups))
      ensures Valid()
      ensures this.groups == groups && this.nodeContent == nodeContent
      ensures sectionCount == |sections| && links == NavLinks(sections)
      ensures open[0] && forall s :: 0 < s < |open| ==> !open[s]
      ensures forall i :: 0 <= i < |active| ==> !active[i]
      ensures forall i :: 0 <= i < |selected| ==> !selected[i]
      ensures forall g :: 0 <= g < |dim| ==> !dim[g]
      ensures info.None?
    {
      this.groups := groups;
      this.nodeContent := nodeContent;
      sectionCount := |sections|;
      var navLinks := NavLinks(sections);
      links := navLinks;
      open := [true] + seq(|sections| - 1, _ => false);
      active := seq(|navLinks|, _ => false);
      selected := seq(|AllNodes(groups)|, _ => false);
      dim := seq(|groups|, _ => false);
      info := None;
    }

    /** A click on the title of section s toggles that section's `open` class and nothing else. */
    method ToggleSection(s: nat)
      requires Valid() && s < sectionCount
      modifies this
      ensures Valid()
      ensures open == old(open)[s := !old(open)[s]]
      ensures active == old(active) && selected == old(selected) && dim == old(dim) && info == old(info)
    {
      open := open[s := !open[s]];
    }

    /**
     * `selectNode`: mark exactly the links and nodes with this id, open the sections of those
     * links, show the node's content or the placeholder, and dim every group except the last one
     * holding the node (or none when no group holds it).
     */
    method SelectNode(nodeId: string)
      requires Valid()
      modifies this
      ensures Valid()
      ensures forall i :: 0 <= i < |links| ==> (active[i] <==> links[i].id == nodeId)
      ensures forall s :: 0 <= s < sectionCount ==>
        (open[s] <==> old(open[s]) || LinkedSection(links, s, nodeId))
      ensures forall i :: 0 <= i < |AllNodes(groups)| ==>
        (selected[i] <==> AllNodes(groups)[i].id == nodeId)
      ensures info == Some(ContentFor(nodeContent, nodeId))
      ensures (forall g :: 0 <= g < |groups| ==> nodeId !in NodeIds(groups[g].nodes)) ==>
        forall g :: 0 <= g < |dim| ==> !dim[g]
      ensures forall c :: LastHolding(groups, c, nodeId) ==>
        forall g :: 0 <= g < |dim| ==> (dim[g] <==> g != c)
    {
      active, open := MarkLinks(links, open, nodeId);
      selected := MarkNodes(AllNodes(groups), nodeId);
      info := Some(if nodeId in nodeContent then nodeContent[nodeId] else Placeholder);
      dim := DimGroups(groups, nodeId);
    }
  }

  /**
   * The pass of `selectNode` over the `.nav-link` elements: each loses `active`, and a link with
   * this id gets it back and opens its section when that is not open already.
   */
  method MarkLinks(links: seq<NavLink>, open: seq<bool>, nodeId: string)
    returns (active: seq<bool>, nowOpen: seq<bool>)
    requires forall i :: 0 <= i < |links| ==> links[i].section < |open|
    ensures |active| == |links| && |nowOpen| == |open|
    ensures forall i :: 0 <= i < |links| ==> (active[i] <==> links[i].id == nodeId)
    ensures forall s :: 0 <= s < |open| ==> (nowOpen[s] <==> open[s] || LinkedSection(links, s, nodeId))
  {
    active := seq(|links|, _ => false);
    nowOpen := open;
    var i := 0;
    while i < |links|
      invariant 0 <= i <= |links|
      invariant |active| == |links| && |nowOpen| == |open|
      invariant forall j :: 0 <= j < i ==> (active[j] <==> links[j].id == nodeId)
      invariant forall s :: 0 <= s < |open| ==>
        (nowOpen[s] <==> open[s] || exists j :: 0 <= j < i && links[j].id == nodeId && links[j].section == s)
    {
      active := active[i := false];
      if links[i].id == nodeId {
        active := active[i := true];
        var section := links[i].section;
        if !nowOpen[section] {
          nowOpen := nowOpen[section := true];
        }
      }
      i := i + 1;
    }
  }

  /** `classed('selected', false)` on every node, then `classed('selected', true)` on those with this id. */
  method MarkNodes(nodes: seq<Node>, nodeId: string) returns (selected: seq<bool>)
    ensures |selected| == |nodes|
    ensures forall i :: 0 <= i < |nodes| ==> (selected[i] <==> nodes[i].id == nodeId)
  {
    selected := seq(|nodes|, _ => false);
    var k := 0;
    while k < |nodes|
      invariant 0 <= k <= |nodes| && |selected| == |nodes|
      invariant forall j :: 0 <= j < k ==> (selected[j] <==> nodes[j].id == nodeId)
      invariant forall j :: k <= j < |nodes| ==> !selected[j]
    {
      if nodes[k].id == nodeId {
        selected := selected[k := true];
      }
      k := k + 1;
    }
  }

  /**
   * The last part of `selectNode`: when some group holds the node, dim every group and then undim
   * the one whose element id is `constellation-` followed by the found key; otherwise undim all.
   */
  method DimGroups(groups: seq<Group>, nodeId: string) returns (dim: seq<bool>)
    requires Distinct(Keys(groups))
    ensures |dim| == |groups|
    ensures (forall g :: 0 <= g < |groups| ==> nodeId !in NodeIds(groups[g].nodes)) ==>
      forall g :: 0 <= g < |dim| ==> !dim[g]
    ensures forall c :: LastHolding(groups, c, nodeId) ==>
      forall g :: 0 <= g < |dim| ==> (dim[g] <==> g != c)
  {
    var found := FindNodeConstellation(groups, nodeId);
    if found.Some? {
      dim := seq(|groups|, _ => true);
      ghost var c :| LastHolding(groups, c, nodeId) && groups[c].key == found.value;
      var g := 0;
      while g < |groups| && groups[g].key != found.value
        invariant 0 <= g <= c
      {
        g := g + 1;
      }
      assert Keys(groups)[g] == Keys(groups)[c];
      dim := dim[g := false];
    } else {
      dim := seq(|groups|, _ => false);
    }
  }
}
