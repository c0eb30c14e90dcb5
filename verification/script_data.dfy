/**
 * The data script.js carries in its own literals: its graph, which differs from
 * src/data/constellationData.js (more fundamentals nodes, no difficulties or subpages, and three
 * links that leave their group), and the `nodeContent` table of the info panel.
 */
module ScriptData {
  import opened Wrappers
  import opened Graph
  import opened NavigationData
  import opened Selection

  const Core: Group := Group("core", "TinyCore ESP32", "#6bb4ff", [
      Node("intro", "Introduction", 0, 0, None, []),
      Node("setup", "Getting Started", 100, -50, None, []),
      Node("hardware", "Hardware Overview", 200, 0, None, []),
      Node("programming", "Programming Basics", 300, -50, None, []),
      Node("wifi", "WiFi & Connectivity", 400, 0, None, []),
      Node("bt", "Bluetooth Features", 500, -50, None, []),
      Node("projects", "Sample Projects", 600, 0, None, [])
    ], [
      Link("intro", "setup"),
      Link("setup", "hardware"),
      Link("hardware", "programming"),
      Link("programming", "wifi"),
      Link("wifi", "bt"),
      Link("bt", "projects")
    ])

  const Fundamentals: Group := Group("fundamentals", "Fundamentals", "#7cbe5f", [
      Node("electricity", "Electricity Basics", -100, 150, None, []),
      Node("components", "Electronic Components", 0, 200, None, []),
      Node("circuits", "Circuit Theory", 100, 250, None, []),
      Node("ohms", "Ohm's Law", 200, 200, None, []),
      Node("pcb", "PCB Design", 300, 250, None, []),
      Node("soldering", "Soldering Skills", 400, 200, None, [])
    ], [
      Link("electricity", "components"),
      Link("components", "circuits"),
      Link("circuits", "ohms"),
      Link("ohms", "pcb"),
      Link("pcb", "soldering"),
      Link("intro", "electricity")
    ])

  const Robotics: Group := Group("robotics", "Robotics Platform", "#ff6b6b", [
      Node("motors", "Motors & Control", 250, -150, None, []),
      Node("servos", "Servo Operation", 350, -200, None, []),
      Node("pwm", "PWM Techniques", 450, -150, None, []),
      Node("kinematics", "Robot Kinematics", 550, -200, None, []),
      Node("chassis", "Chassis Design", 650, -150, None, [])
    ], [
      Link("motors", "servos"),
      Link("servos", "pwm"),
      Link("pwm", "kinematics"),
      Link("kinematics", "chassis"),
      Link("hardware", "motors")
    ])

  const Sensors: Group := Group("sensors", "Sensors & Inputs", "#6bffb4", [
      Node("analog", "Analog Sensors", -200, -150, None, []),
      Node("digital", "Digital Sensors", -300, -200, None, []),
      Node("temp", "Temperature & Humidity", -400, -150, None, []),
      Node("motion", "Motion & Acceleration", -500, -200, None, []),
      Node("light", "Light & Color", -600, -150, None, [])
    ], [
      Link("analog", "digital"),
      Link("digital", "temp"),
      Link("temp", "motion"),
      Link("motion", "light"),
      Link("hardware", "analog")
    ])

  /** script.js's `constellationData`, its properties in declaration order. */
  const Groups: seq<Group> := [Core, Fundamentals, Robotics, Sensors]

  /**
   * The titles of script.js's `nodeContent`, by page id: six of the pages have an entry. The HTML
   * bodies that go with them are not part of this model.
   */
  const ContentTitles: map<string, string> := map[
    "intro" := "Introduction to TinyCore ESP32",
    "setup" := "Getting Started with TinyCore",
    "hardware" := "TinyCore Hardware Overview",
    "electricity" := "Electricity Basics",
    "motors" := "Motors & Control Systems",
    "analog" := "Analog Sensors"
  ]

  /** Four groups, in this order, under distinct keys. */
  lemma DataKeys()
    ensures Keys(Groups) == ["core", "fundamentals", "robotics", "sensors"]
    ensures Distinct(Keys(Groups))
  {
  }

  /** The node ids of each group. */
  lemma GroupIds()
    ensures NodeIds(Core.nodes) == ["intro", "setup", "hardware", "programming", "wifi", "bt", "projects"]
    ensures NodeIds(Fundamentals.nodes) == ["electricity", "components", "circuits", "ohms", "pcb", "soldering"]
    ensures NodeIds(Robotics.nodes) == ["motors", "servos", "pwm", "kinematics", "chassis"]
    ensures NodeIds(Sensors.nodes) == ["analog", "digital", "temp", "motion", "light"]
  {
  }

  /** The 23 node ids of the graph, group by group; no two are equal. */
  lemma DataNodeIds()
    ensures NodeIds(AllNodes(Groups)) == [
      "intro", "setup", "hardware", "programming", "wifi", "bt", "projects",
      "electricity", "components", "circuits", "ohms", "pcb", "soldering",
      "motors", "servos", "pwm", "kinematics", "chassis",
      "analog", "digital", "temp", "motion", "light"]
    ensures Distinct(NodeIds(AllNodes(Groups)))
  {
    GroupIds();
    AllNodeIds4(Core, Fundamentals, Robotics, Sensors);
    LiteralNodeIdsDistinct();
  }

  lemma LiteralNodeIdsDistinct()
    ensures Distinct([
      "intro", "setup", "hardware", "programming", "wifi", "bt", "projects",
      "electricity", "components", "circuits", "ohms", "pcb", "soldering",
      "motors", "servos", "pwm", "kinematics", "chassis",
      "analog", "digital", "temp", "motion", "light"])
  {
  }

  /**
   * Within every group the node ids are distinct and the first |nodes| - 1 links chain the nodes
   * in order; only the core group has no further link.
   */
  lemma DataChains()
    ensures forall g :: 0 <= g < |Groups| ==> Distinct(NodeIds(Groups[g].nodes)) && ChainsNodes(Groups[g])
    ensures LinksFormPath(Core)
    ensures forall g :: 1 <= g < |Groups| ==> |Groups[g].links| == |Groups[g].nodes|
  {
    CoreChain();
    FundamentalsChain();
    RoboticsChain();
    SensorsChain();
  }

  lemma CoreChain()
    ensures Distinct(NodeIds(Core.nodes)) && LinksFormPath(Core)
  {
    assert NodeIds(Core.nodes) == ["intro", "setup", "hardware", "programming", "wifi", "bt", "projects"];
  }

  lemma FundamentalsChain()
    ensures Distinct(NodeIds(Fundamentals.nodes)) && ChainsNodes(Fundamentals)
  {
    assert NodeIds(Fundamentals.nodes) == ["electricity", "components", "circuits", "ohms", "pcb", "soldering"];
  }

  lemma RoboticsChain()
    ensures Distinct(NodeIds(Robotics.nodes)) && ChainsNodes(Robotics)
  {
    assert NodeIds(Robotics.nodes) == ["motors", "servos", "pwm", "kinematics", "chassis"];
  }

  lemma SensorsChain()
    ensures Distinct(NodeIds(Sensors.nodes)) && ChainsNodes(Sensors)
  {
    assert NodeIds(Sensors.nodes) == ["analog", "digital", "temp", "motion", "light"];
  }

  /** Every chain link is drawn between two consecutive nodes of its own group. */
  lemma DataChainLines()
    ensures forall g, l :: 0 <= g < |Groups| && 0 <= l < |Groups[g].nodes| - 1 ==>
      LineFor(Groups, g, Groups[g].links[l])
        == Line(g, Position(Groups[g].nodes[l]), Position(Groups[g].nodes[l + 1]))
  {
    DataChains();
    forall g | 0 <= g < |Groups|
      ensures forall l :: 0 <= l < |Groups[g].nodes| - 1 ==>
        LineFor(Groups, g, Groups[g].links[l])
          == Line(g, Position(Groups[g].nodes[l]), Position(Groups[g].nodes[l + 1]))
    {
      PathLines(Groups, g);
    }
  }

  /**
   * The three links that leave their group: each non-core group's last link comes from intro or
   * hardware, declared in the core group, and ends at the group's first node. It is drawn from the
   * core node's position, found by the global lookup, to that first node's position.
   */
  lemma DataCrossLinks()
    ensures Fundamentals.links[5] == Link("intro", "electricity")
    ensures Robotics.links[4] == Link("hardware", "motors")
    ensures Sensors.links[4] == Link("hardware", "analog")
    ensures FindNodeById(Groups, "intro") == Point(0, 0)
    ensures FindNodeById(Groups, "hardware") == Point(200, 0)
    ensures forall g :: 1 <= g < |Groups| ==> |Groups[g].links| == |Groups[g].nodes| > 0
    ensures forall g :: 1 <= g < |Groups| ==>
      var last := Groups[g].links[|Groups[g].links| - 1];
      LineFor(Groups, g, last) == Line(g, FindNodeById(Groups, last.source), Position(Groups[g].nodes[0]))
  {
    CoreLookups();
    CrossSources();
    forall g | 1 <= g < |Groups|
      ensures var last := Groups[g].links[|Groups[g].links| - 1];
        LineFor(Groups, g, last) == Line(g, FindNodeById(Groups, last.source), Position(Groups[g].nodes[0]))
    {
      CrossGroupLine(Groups, g, Groups[g].links[|Groups[g].links| - 1].source);
    }
  }

  /** The last link of each non-core group enters the group's first node from outside the group. */
  lemma CrossSources()
    ensures forall g :: 1 <= g < |Groups| ==>
      && |Groups[g].links| == |Groups[g].nodes| > 0
      && Groups[g].links[|Groups[g].links| - 1].source !in NodeIds(Groups[g].nodes)
      && Groups[g].links[|Groups[g].links| - 1].target == Groups[g].nodes[0].id
      && forall j :: 0 < j < |Groups[g].nodes| ==> Groups[g].nodes[j].id != Groups[g].nodes[0].id
  {
    GroupIds();
  }

  /** The global lookup finds intro and hardware in the core group. */
  lemma CoreLookups()
    ensures FindNodeById(Groups, "intro") == Point(0, 0)
    ensures FindNodeById(Groups, "hardware") == Point(200, 0)
  {
    DataNodeIds();
    AllNodesCons(Groups);
    FindNodeOfDeclared(Groups, 0);
    FindNodeOfDeclared(Groups, 2);
  }

  /** The graph draws 22 lines. */
  lemma DataLinkCount()
    ensures LinkCount(Groups) == 22
  {
    var g := Groups;
    LinkCountStep(g, 0);
    LinkCountStep(g, 1);
    LinkCountStep(g, 2);
    LinkCountStep(g, 3);
    assert g[..0] == [] && g[..4] == g;
  }

  /**
   * Every node is held by its own group and by no later one, so selecting it leaves exactly that
   * group undimmed.
   */
  lemma DataOwnGroup()
    ensures forall g, i :: 0 <= g < |Groups| && 0 <= i < |Groups[g].nodes| ==>
      LastHolding(Groups, g, Groups[g].nodes[i].id)
  {
    GroupIds();
  }

  /** Navigation pages without a node in this graph: selecting one dims no group. */
  const PagesWithoutNode: seq<string> := ["webserver", "mqtt", "weather", "home", "linerobot", "garden"]

  lemma DataPagesWithoutNode()
    ensures forall k, g :: 0 <= k < |PagesWithoutNode| && 0 <= g < |Groups| ==>
      PagesWithoutNode[k] !in NodeIds(Groups[g].nodes)
    ensures forall k :: 0 <= k < |PagesWithoutNode| ==>
      !Declares(Groups, PagesWithoutNode[k]) && FindNodeById(Groups, PagesWithoutNode[k]) == Origin
  {
    GroupIds();
    forall k | 0 <= k < |PagesWithoutNode|
      ensures forall g :: 0 <= g < |Groups| ==> PagesWithoutNode[k] !in NodeIds(Groups[g].nodes)
      ensures !Declares(Groups, PagesWithoutNode[k])
      ensures FindNodeById(Groups, PagesWithoutNode[k]) == Origin
    {
      HeldNowhere(Groups, PagesWithoutNode[k]);
    }
  }

  /** Six pages have content, all of them navigation pages with a node in this graph. */
  lemma DataContent()
    ensures ContentTitles.Keys == {"intro", "setup", "hardware", "electricity", "motors", "analog"}
    ensures forall id :: id in ContentTitles ==> Declares(Groups, id) && id in Ids(Flatten(NavigationStructure))
  {
    DataNodeIds();
    DataIds();
  }

  /**
   * The page as it loads: navigation and map built, then `selectNode('intro')`. Only the core
   * group stays undimmed, the intro node alone is selected, and the first section is open.
   */
  method LoadPage(nodeContent: map<string, Content>) returns (page: Page)
    ensures page.groups == Groups && |page.dim| == 4
    ensures !page.dim[0] && page.dim[1] && page.dim[2] && page.dim[3]
    ensures |page.selected| == |AllNodes(Groups)|
    ensures forall i :: 0 <= i < |page.selected| ==> (page.selected[i] <==> AllNodes(Groups)[i].id == "intro")
    ensures |page.open| == 6 && page.open[0]
    ensures page.info == Some(ContentFor(nodeContent, "intro"))
  {
    DataKeys();
    page := new Page(Groups, NavigationStructure, nodeContent);
    page.SelectNode("intro");
    IntroInCore();
  }

  /** The intro node is held by the core group and by no later group. */
  lemma IntroInCore()
    ensures LastHolding(Groups, 0, "intro")
  {
    GroupIds();
  }
}
