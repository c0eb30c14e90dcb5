/**
 * The sidebar's navigation structure (src/data/navigationData.js): six titled sections, each an
 * ordered list of pages. script.js declares an identical literal (script.js:92-151) and uses this
 * same constant in the model.
 */
module NavigationData {
  import opened Wrappers

  datatype Item = Item(name: string, id: string)
  datatype Section = Section(title: string, items: seq<Item>)

  const NavigationStructure: seq<Section> := [
    Section("Getting Started", [
      Item("Introduction to TinyCore", "intro"),
      Item("First-time Setup", "setup"),
      Item("Hardware Overview", "hardware"),
      Item("Programming Environment", "programming")
    ]),
    Section("Fundamentals", [
      Item("Electricity Basics", "electricity"),
      Item("Electronic Components", "components"),
      Item("Circuit Theory", "circuits"),
      Item("Ohm's Law", "ohms"),
      Item("PCB Design", "pcb"),
      Item("Soldering Techniques", "soldering")
    ]),
    Section("Connectivity", [
      Item("WiFi Configuration", "wifi"),
      Item("Bluetooth Features", "bt"),
      Item("Web Server Setup", "webserver"),
      Item("MQTT Communication", "mqtt")
    ]),
    Section("Robotics", [
      Item("Motor Control", "motors"),
      Item("Servo Operation", "servos"),
      Item("PWM Techniques", "pwm"),
      Item("Robot Kinematics", "kinematics"),
      Item("Chassis Design", "chassis")
    ]),
    Section("Sensors", [
      Item("Analog Sensors", "analog"),
      Item("Digital Sensors", "digital"),
      Item("Temperature & Humidity", "temp"),
      Item("Motion & Acceleration", "motion"),
      Item("Light & Color", "light")
    ]),
    Section("Projects", [
      Item("Weather Station", "weather"),
      Item("Home Automation", "home"),
      Item("Line Following Robot", "linerobot"),
      Item("Smart Garden", "garden")
    ])
  ]

  /** All items of all sections, section by section, each section's items in order. */
  function Flatten(sections: seq<Section>): seq<Item> {
    if |sections| == 0 then []
    else Flatten(sections[..|sections| - 1]) + sections[|sections| - 1].items
  }

  /** The sum of the sections' item counts. */
  function ItemCount(sections: seq<Section>): nat {
    if |sections| == 0 then 0
    else ItemCount(sections[..|sections| - 1]) + |sections[|sections| - 1].items|
  }

  function Ids(items: seq<Item>): (ids: seq<string>)
    ensures |ids| == |items|
    ensures forall i :: 0 <= i < |items| ==> ids[i] == items[i].id
  {
    seq(|items|, i requires 0 <= i < |items| => items[i].id)
  }

  function Titles(sections: seq<Section>): (titles: seq<string>)
    ensures |titles| == |sections|
    ensures forall i :: 0 <= i < |sections| ==> titles[i] == sections[i].title
  {
    seq(|sections|, i requires 0 <= i < |sections| => sections[i].title)
  }

  function Counts(sections: seq<Section>): (counts: seq<nat>)
    ensures |counts| == |sections|
    ensures forall i :: 0 <= i < |sections| ==> counts[i] == |sections[i].items|
  {
    seq(|sections|, i requires 0 <= i < |sections| => |sections[i].items|)
  }

  /** The route a page item links to: `/page/{id}`. */
  function PagePath(id: string): (path: string)
    ensures |path| == |id| + 6 && path[..6] == "/page/" && path[6..] == id
  {
    "/page/" + id
  }

  /** Different pages never share a route. */
  lemma PagePathInjective(a: string, b: string)
    requires PagePath(a) == PagePath(b)
    ensures a == b
  {
    assert a == PagePath(a)[6..];
  }

  /** Adding one more section appends exactly its items. */
  lemma FlattenStep(sections: seq<Section>, k: nat)
    requires k < |sections|
    ensures Flatten(sections[..k + 1]) == Flatten(sections[..k]) + sections[k].items
  {
    assert sections[..k + 1][..k] == sections[..k];
  }

  /** The sections before k2 hold at least every item of section k and of the sections before it. */
  lemma {:induction false} ItemCountMonotone(sections: seq<Section>, k: nat, k2: nat)
    requires k < k2 <= |sections|
    ensures ItemCount(sections[..k]) + |sections[k].items| <= ItemCount(sections[..k2])
  {
    assert sections[..k2][..k2 - 1] == sections[..k2 - 1];
    if k2 > k + 1 {
      ItemCountMonotone(sections, k, k2 - 1);
    }
  }

  /** The flattened list is as long as the sum of the item counts. */
  lemma {:induction false} FlattenLength(sections: seq<Section>)
    ensures |Flatten(sections)| == ItemCount(sections)
  {
    if |sections| > 0 {
      FlattenLength(sections[..|sections| - 1]);
    }
  }

  /**
   * Item i of section k sits in the flattened list right after the items of the sections before
   * k: concatenation in section order, item order preserved.
   */
  lemma {:induction false} FlattenAt(sections: seq<Section>, k: nat, i: nat)
    requires k < |sections| && i < |sections[k].items|
    ensures ItemCount(sections[..k]) + i < |Flatten(sections)|
    ensures Flatten(sections)[ItemCount(sections[..k]) + i] == sections[k].items[i]
  {
    var n := |sections|;
    var init := sections[..n - 1];
    FlattenLength(sections);
    FlattenLength(init);
    if k == n - 1 {
      assert init == sections[..k];
    } else {
      FlattenAt(init, k, i);
      assert init[..k] == sections[..k];
    }
  }

  lemma DataFlatten()
    ensures Flatten(NavigationStructure) ==
      NavigationStructure[0].items + NavigationStructure[1].items + NavigationStructure[2].items +
      NavigationStructure[3].items + NavigationStructure[4].items + NavigationStructure[5].items
  {
    var s := NavigationStructure;
    FlattenStep(s, 0); FlattenStep(s, 1); FlattenStep(s, 2);
    FlattenStep(s, 3); FlattenStep(s, 4); FlattenStep(s, 5);
    assert s[..0] == [];
    assert s[..6] == s;
  }

  /** Six sections, in this order. */
  lemma DataSections()
    ensures Titles(NavigationStructure) ==
      ["Getting Started", "Fundamentals", "Connectivity", "Robotics", "Sensors", "Projects"]
  {
  }

  /** Item counts per section; every section has at least one item; 28 pages in all. */
  lemma DataCounts()
    ensures Counts(NavigationStructure) == [4, 6, 4, 5, 5, 4]
    ensures forall k :: 0 <= k < |NavigationStructure| ==> |NavigationStructure[k].items| > 0
    ensures |Flatten(NavigationStructure)| == 28
  {
    DataFlatten();
  }

  lemma IdsAppend(a: seq<Item>, b: seq<Item>)
    ensures Ids(a + b) == Ids(a) + Ids(b)
  {
  }

  /** Adding one more section appends exactly its items' ids. */
  lemma IdsFlattenStep(s: seq<Section>, k: nat)
    requires k < |s|
    ensures Ids(Flatten(s[..k + 1])) == Ids(Flatten(s[..k])) + Ids(s[k].items)
  {
    FlattenStep(s, k);
    IdsAppend(Flatten(s[..k]), s[k].items);
  }

  /** The ids of six sections' flattened items are the sections' ids, section by section. */
  lemma FlattenIds6(s: seq<Section>, a: seq<string>, b: seq<string>, c: seq<string>,
                    d: seq<string>, e: seq<string>, f: seq<string>)
    requires |s| == 6
    requires Ids(s[0].items) == a && Ids(s[1].items) == b && Ids(s[2].items) == c
    requires Ids(s[3].items) == d && Ids(s[4].items) == e && Ids(s[5].items) == f
    ensures Ids(Flatten(s)) == a + b + c + d + e + f
  {
    assert s[..0] == [] && Ids([]) == [];
    IdsFlattenStep(s, 0);
    assert Ids(Flatten(s[..1])) == a;
    IdsFlattenStep(s, 1);
    assert Ids(Flatten(s[..2])) == a + b;
    IdsFlattenStep(s, 2);
    assert Ids(Flatten(s[..3])) == a + b + c;
    IdsFlattenStep(s, 3);
    assert Ids(Flatten(s[..4])) == a + b + c + d;
    IdsFlattenStep(s, 4);
    assert Ids(Flatten(s[..5])) == a + b + c + d + e;
    IdsFlattenStep(s, 5);
    assert s[..6] == s;
  }

  /** The page ids of each section. */
  lemma SectionIds()
    ensures Ids(NavigationStructure[0].items) == ["intro", "setup", "hardware", "programming"]
    ensures Ids(NavigationStructure[1].items) ==
      ["electricity", "components", "circuits", "ohms", "pcb", "soldering"]
    ensures Ids(NavigationStructure[2].items) == ["wifi", "bt", "webserver", "mqtt"]
    ensures Ids(NavigationStructure[3].items) == ["motors", "servos", "pwm", "kinematics", "chassis"]
    ensures Ids(NavigationStructure[4].items) == ["analog", "digital", "temp", "motion", "light"]
    ensures Ids(NavigationStructure[5].items) == ["weather", "home", "linerobot", "garden"]
  {
  }

  /** The flattened page ids, in navigation order. */
  lemma DataIds()
    ensures Ids(Flatten(NavigationStructure)) == [
      "intro", "setup", "hardware", "programming",
      "electricity", "components", "circuits", "ohms", "pcb", "soldering",
      "wifi", "bt", "webserver", "mqtt",
      "motors", "servos", "pwm", "kinematics", "chassis",
      "analog", "digital", "temp", "motion", "light",
      "weather", "home", "linerobot", "garden"]
  {
    SectionIds();
    FlattenIds6(NavigationStructure,
      ["intro", "setup", "hardware", "programming"],
      ["electricity", "components", "circuits", "ohms", "pcb", "soldering"],
      ["wifi", "bt", "webserver", "mqtt"],
      ["motors", "servos", "pwm", "kinematics", "chassis"],
      ["analog", "digital", "temp", "motion", "light"],
      ["weather", "home", "linerobot", "garden"]);
  }

  /** All 28 page ids are different; the first is "intro" and the last is "garden". */
  lemma DataDistinct()
    ensures Distinct(Ids(Flatten(NavigationStructure)))
    ensures |Flatten(NavigationStructure)| == 28
    ensures Flatten(NavigationStructure)[0].id == "intro"
    ensures Flatten(NavigationStructure)[27].id == "garden"
  {
    DataIds();
    LiteralIdsDistinct();
  }

  lemma LiteralIdsDistinct()
    ensures Distinct([
      "intro", "setup", "hardware", "programming",
      "electricity", "components", "circuits", "ohms", "pcb", "soldering",
      "wifi", "bt", "webserver", "mqtt",
      "motors", "servos", "pwm", "kinematics", "chassis",
      "analog", "digital", "temp", "motion", "light",
      "weather", "home", "linerobot", "garden"])
  {
  }
}
