/**
 * The graph that src/components/ConstellationMap.js draws (src/data/constellationData.js): four
 * groups, twenty nodes with difficulties and documentation subpages, and the links that are not
 * commented out.
 */
module ConstellationData {
  import opened Wrappers
  import opened Graph

  const Core: Group := Group("core", "TinyCore ESP32", "#6bb4ff", [
      Node("intro", "Introduction", 0, 0, Some(1), [
        Subpage("overview", "ESP32 Overview"),
        Subpage("features", "Key Features"),
        Subpage("comparison", "ESP32 vs Other MCUs"),
        Subpage("ecosystem", "TinyCore Ecosystem")]),
      Node("setup", "Getting Started", 100, -50, Some(2), [
        Subpage("prerequisites", "Prerequisites"),
        Subpage("installation", "Software Installation"),
        Subpage("first-connection", "First Connection"),
        Subpage("troubleshooting", "Common Issues")]),
      Node("hardware", "Hardware Overview", 200, 0, Some(3), [
        Subpage("pinout", "Board Pinout"),
        Subpage("peripherals", "Built-in Peripherals"),
        Subpage("power", "Power Management"),
        Subpage("memory", "Memory Architecture")]),
      Node("programming", "Programming Basics", 300, -50, Some(3), [
        Subpage("arduino", "Arduino Framework"),
        Subpage("espidf", "ESP-IDF Framework"),
        Subpage("micropython", "MicroPython"),
        Subpage("debugging", "Debugging Techniques")]),
      Node("wifi", "WiFi & Connectivity", 400, 0, Some(3), [
        Subpage("wifi-basics", "WiFi Basics"),
        Subpage("http-client", "HTTP Client"),
        Subpage("web-server", "Web Server"),
        Subpage("ota", "OTA Updates")]),
      Node("bt", "Bluetooth Features", 500, -50, Some(4), [
        Subpage("bt-classic", "Bluetooth Classic"),
        Subpage("ble", "Bluetooth Low Energy"),
        Subpage("pairing", "Pairing & Security"),
        Subpage("gatt", "GATT Services & Characteristics")]),
      Node("projects", "Sample Projects", 600, 0, Some(2), [
        Subpage("weather", "Weather Station"),
        Subpage("home-automation", "Home Automation"),
        Subpage("robot", "Line Following Robot"),
        Subpage("datalogger", "Data Logger")])
    ], [
      Link("intro", "setup"),
      Link("setup", "hardware"),
      Link("hardware", "programming"),
      Link("programming", "wifi"),
      Link("wifi", "bt"),
      Link("bt", "projects")
    ])

  /** The cross-group link from "intro" is commented out in this file and is not part of it. */
  const Fundamentals: Group := Group("fundamentals", "Fundamentals", "#7cbe5f", [
      Node("electricity", "Electricity Basics", -100, 150, Some(1), [
        Subpage("voltage", "Voltage & Current"),
        Subpage("resistance", "Resistance & Ohm's Law"),
        Subpage("circuits", "Circuit Types"),
        Subpage("safety", "Electrical Safety")]),
      Node("components", "Electronic Components", 0, 200, Some(2), [
        Subpage("passive", "Passive Components"),
        Subpage("active", "Active Components"),
        Subpage("logic", "Logic Components"),
        Subpage("modules", "Common Modules")]),
      Node("circuits", "Circuit Theory", 100, 250, Some(3), [
        Subpage("series", "Series Circuits"),
        Subpage("parallel", "Parallel Circuits"),
        Subpage("kirchhoff", "Kirchhoff's Laws"),
        Subpage("analysis", "Circuit Analysis")])
    ], [
      Link("electricity", "components"),
      Link("components", "circuits")
    ])

  const Robotics: Group := Group("robotics", "Robotics Platform", "#ff6b6b", [
      Node("motors", "Motors & Control", 250, -150, Some(3), []),
      Node("servos", "Servo Operation", 350, -200, Some(4), []),
      Node("pwm", "PWM Techniques", 450, -150, Some(4), []),
      Node("kinematics", "Robot Kinematics", 550, -200, Some(5), []),
      Node("chassis", "Chassis Design", 600, -350, Some(6), [])
    ], [
      Link("motors", "servos"),
      Link("servos", "pwm"),
      Link("pwm", "kinematics"),
      Link("kinematics", "chassis")
    ])

  const Sensors: Group := Group("sensors", "Sensors & Inputs", "#6bffb4", [
      Node("analog", "Analog Sensors", -200, -150, Some(1), []),
      Node("digital", "Digital Sensors", -300, -200, Some(1), []),
      Node("temp", "Temperature & Humidity", -400, -150, Some(1), []),
      Node("motion", "Motion & Acceleration", -500, -200, Some(1), []),
      Node("light", "Light & Color", -600, -150, Some(1), [])
    ], [
      Link("analog", "digital"),
      Link("digital", "temp"),
      Link("temp", "motion"),
      Link("motion", "light")
    ])

  /** `constellationData`, its properties in declaration order. */
  const Groups: seq<Group> := [Core, Fundamentals, Robotics, Sensors]

  /** The ids of a node's subpages, in order. */
  function SubpageIds(subpages: seq<Subpage>): seq<string> {
    seq(|subpages|, k requires 0 <= k < |subpages| => subpages[k].id)
  }

  /** Four groups, in this order, under distinct keys. */
  lemma DataKeys()
    ensures Keys(Groups) == ["core", "fundamentals", "robotics", "sensors"]
    ensures Distinct(Keys(Groups))
  {
  }

  /** The twenty node ids, group by group. */
  lemma DataNodeIds()
    ensures NodeIds(AllNodes(Groups)) == [
      "intro", "setup", "hardware", "programming", "wifi", "bt", "projects",
      "electricity", "components", "circuits",
      "motors", "servos", "pwm", "kinematics", "chassis",
      "analog", "digital", "temp", "motion", "light"]
  {
    GroupIds();
    AllNodeIds4(Core, Fundamentals, Robotics, Sensors);
  }

  /** The node ids of each group. */
  lemma GroupIds()
    ensures NodeIds(Core.nodes) == ["intro", "setup", "hardware", "programming", "wifi", "bt", "projects"]
    ensures NodeIds(Fundamentals.nodes) == ["electricity", "components", "circuits"]
    ensures NodeIds(Robotics.nodes) == ["motors", "servos", "pwm", "kinematics", "chassis"]
    ensures NodeIds(Sensors.nodes) == ["analog", "digital", "temp", "motion", "light"]
  {
  }

  /** No two nodes, in any groups, share an id. */
  lemma DataDistinctNodeIds()
    ensures Distinct(NodeIds(AllNodes(Groups)))
    ensures |AllNodes(Groups)| == 20
  {
    DataNodeIds();
    LiteralNodeIdsDistinct();
  }

  lemma LiteralNodeIdsDistinct()
    ensures Distinct([
      "intro", "setup", "hardware", "programming", "wifi", "bt", "projects",
      "electricity", "components", "circuits",
      "motors", "servos", "pwm", "kinematics", "chassis",
      "analog", "digital", "temp", "motion", "light"])
  {
  }

  /** Within every group the node ids are distinct and the links run from each node to the next. */
  lemma DataPaths()
    ensures forall g :: 0 <= g < |Groups| ==>
      Distinct(NodeIds(Groups[g].nodes)) && LinksFormPath(Groups[g])
  {
    CorePath();
    FundamentalsPath();
    RoboticsPath();
    SensorsPath();
  }

  lemma CorePath()
    ensures Distinct(NodeIds(Core.nodes)) && LinksFormPath(Core)
  {
    assert NodeIds(Core.nodes) == ["intro", "setup", "hardware", "programming", "wifi", "bt", "projects"];
  }

  lemma FundamentalsPath()
    ensures Distinct(NodeIds(Fundamentals.nodes)) && LinksFormPath(Fundamentals)
  {
    assert NodeIds(Fundamentals.nodes) == ["electricity", "components", "circuits"];
  }

  lemma RoboticsPath()
    ensures Distinct(NodeIds(Robotics.nodes)) && LinksFormPath(Robotics)
  {
    assert NodeIds(Robotics.nodes) == ["motors", "servos", "pwm", "kinematics", "chassis"];
  }

  lemma SensorsPath()
    ensures Distinct(NodeIds(Sensors.nodes)) && LinksFormPath(Sensors)
  {
    assert NodeIds(Sensors.nodes) == ["analog", "digital", "temp", "motion", "light"];
  }

  /**
   * Every link's end points are nodes of its own group, so every line is drawn between two
   * consecutive nodes of that group and the origin fallback of `findNodeById` never fires here.
   */
  lemma DataLines()
    ensures forall g, l :: 0 <= g < |Groups| && 0 <= l < |Groups[g].links| ==>
      && Groups[g].links[l].source in NodeIds(Groups[g].nodes)
      && Groups[g].links[l].target in NodeIds(Groups[g].nodes)
      && LineFor(Groups, g, Groups[g].links[l])
           == Line(g, Position(Groups[g].nodes[l]), Position(Groups[g].nodes[l + 1]))
  {
    DataPaths();
    forall g | 0 <= g < |Groups|
      ensures forall l :: 0 <= l < |Groups[g].links| ==>
        && Groups[g].links[l].source in NodeIds(Groups[g].nodes)
        && Groups[g].links[l].target in NodeIds(Groups[g].nodes)
        && LineFor(Groups, g, Groups[g].links[l])
             == Line(g, Position(Groups[g].nodes[l]), Position(Groups[g].nodes[l + 1]))
    {
      PathLines(Groups, g);
      forall l | 0 <= l < |Groups[g].links|
        ensures Groups[g].links[l].source in NodeIds(Groups[g].nodes)
        ensures Groups[g].links[l].target in NodeIds(Groups[g].nodes)
      {
        assert NodeIds(Groups[g].nodes)[l] == Groups[g].links[l].source;
        assert NodeIds(Groups[g].nodes)[l + 1] == Groups[g].links[l].target;
      }
    }
  }

  /** The graph draws 16 lines. */
  lemma DataLinkCount()
    ensures LinkCount(Groups) == 16
  {
    var g := Groups;
    LinkCountStep(g, 0);
    LinkCountStep(g, 1);
    LinkCountStep(g, 2);
    LinkCountStep(g, 3);
    assert g[..0] == [] && g[..4] == g;
  }

  /** Every node states a difficulty between 1 and 6, so the `|| 3` default never applies. */
  lemma DataDifficulties()
    ensures forall g, i :: 0 <= g < |Groups| && 0 <= i < |Groups[g].nodes| ==>
      Groups[g].nodes[i].difficulty.Some? && 1 <= Groups[g].nodes[i].difficulty.value <= 6
  {
  }

  /**
   * The core and fundamentals nodes each declare four subpages with distinct ids; the robotics
   * and sensors nodes declare none.
   */
  lemma DataSubpages()
    ensures forall g, i :: 0 <= g < 2 && 0 <= i < |Groups[g].nodes| ==>
      |Groups[g].nodes[i].subpages| == 4 && Distinct(SubpageIds(Groups[g].nodes[i].subpages))
    ensures forall g, i :: 2 <= g < 4 && 0 <= i < |Groups[g].nodes| ==>
      Groups[g].nodes[i].subpages == []
  {
    forall i | 0 <= i < |Core.nodes|
      ensures Distinct(SubpageIds(Core.nodes[i].subpages))
    {
      var ids := SubpageIds(Core.nodes[i].subpages);
      assert forall j :: 0 <= j < 4 ==> ids[j] == Core.nodes[i].subpages[j].id;
    }
    forall i | 0 <= i < |Fundamentals.nodes|
      ensures Distinct(SubpageIds(Fundamentals.nodes[i].subpages))
    {
      var ids := SubpageIds(Fundamentals.nodes[i].subpages);
      assert forall j :: 0 <= j < 4 ==> ids[j] == Fundamentals.nodes[i].subpages[j].id;
    }
  }

  /**
   * Subpage ids are a namespace of their own: "circuits" is a subpage of electricity and also a
   * node, and the node lookup finds the node, not the subpage.
   */
  lemma CircuitsTwice()
    ensures "circuits" in SubpageIds(Fundamentals.nodes[0].subpages)
    ensures Fundamentals.nodes[0].id == "electricity" && Fundamentals.nodes[2].id == "circuits"
    ensures FindNodeById(Groups, "circuits") == Point(100, 250)
  {
    assert SubpageIds(Fundamentals.nodes[0].subpages)[2] == "circuits";
    DataDistinctNodeIds();
    DataNodeIds();
    FindNodeOfDeclared(Groups, 9);
  }

  /** Navigation pages that name no node of this graph. */
  const PagesWithoutNode: seq<string> :=
    ["ohms", "pcb", "soldering", "webserver", "mqtt", "weather", "home", "linerobot", "garden"]

  /**
   * No group holds a node for these pages, so the group lookup of `selectNode` finds none and
   * `findNodeById` answers the origin.
   */
  lemma DataPagesWithoutNode()
    ensures forall k, g :: 0 <= k < |PagesWithoutNode| && 0 <= g < |Groups| ==>
      PagesWithoutNode[k] !in NodeIds(Groups[g].nodes)
    ensures forall k :: 0 <= k < |PagesWithoutNode| ==>
      !Declares(Groups, PagesWithoutNode[k]) && FindNodeById(Groups, PagesWithoutNode[k]) == Origin
  {
    GroupIds();
    forall k | 0 <= k < |PagesWithoutNode|
      ensures forall g :: 0 <= g < |Groups| ==> PagesWithoutNode[k] !in NodeIds(Groups[g].nodes)
      ensures !Declares(Groups, PagesWithoutNode[k])
      ensures FindNodeById(Groups, PagesWithoutNode[k]) == Origin
    {
      HeldNowhere(Groups, PagesWithoutNode[k]);
    }
  }
}
