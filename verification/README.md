# TinyCore ESP32 documentation site: a Dafny model of its core

The TinyCore ESP32 documentation site shows its pages two ways. There is a navigation sidebar with six
collapsible sections. There is also a "constellation map": an SVG graph of topic nodes, drawn in
four coloured groups (core, fundamentals, robotics, sensors) and joined by links. The site has
two front ends, and this project models the logic of both.

- The plain script (`script.js`) builds the sidebar and the map in the DOM. Selecting a node,
  from the map or the sidebar, marks the matching link and node, opens the link's section, fills
  the info panel, and dims every group but the one that holds the node.
- The Gatsby/React front end has several parts:
  - `ConstellationMap` draws the map and keeps the pan and zoom view in `localStorage` across
    page changes. It shows a tooltip whose text comes from the node's markdown page.
  - `Sidebar` keeps the list of open sections.
  - The page template computes the previous and next buttons from the flattened navigation.

The modules follow that structure.

| module | file | models |
|---|---|---|
| `Wrappers` | wrappers.dfy | `Option`, and distinctness of a sequence |
| `NavigationData` | navigation_data.dfy | the navigation structure, its flattening, and page routes |
| `Graph` | graph.dfy | nodes, groups, links, `findNodeById`, the per-group node map and the line-drawing pass |
| `ConstellationData` | constellation_data.dfy | the React map's graph (`src/data/constellationData.js`) |
| `Selection` | selection.dfy | script.js's page state (class `Page`), `initializeNavigation` and `selectNode` |
| `ScriptData` | script_data.dfy | script.js's graph, `nodeContent` titles, and the page as it loads |
| `Sidebar` | sidebar.dfy | the React sidebar's `openSections` state |
| `PageNavigation` | page_navigation.dfy | `findPrevNextPages` and the two buttons |
| `Presentation` | presentation.dfy | star polygons from difficulty, and the tooltip description |
| `ViewState` | view_state.dfy | the map's view transform, its storage, and the zoom and reset buttons (class `MapView`) |

The code that changes state becomes imperative Dafny:
- script.js's DOM class toggles become the `seq<bool>` fields of `Selection.Page`. There is one
  flag per element, in document order.
- The React map's view becomes the fields of `ViewState.MapView`: d3's stored transform, the
  drawn transform, the stored entries, the tooltip flag and the navigation target.
- The loops become methods with invariants. Each method's `ensures` states its result: either as
  equal to a specification function whose properties are proved as lemmas (`FlattenPages`,
  `BuildNodeMap`, `DrawLinks`, `TooltipDescription`), or directly by quantified clauses
  (`MarkLinks`, `MarkNodes`, `DimGroups`, `FindNodeConstellation`, `GenerateStarPoints`).

## Model

| member | source | states |
|---|---|---|
| `Graph.FindIn` | script.js:361 | `find` in one group: nothing exactly when no node has the id; otherwise the first node with that id |
| `Graph.FindNodeSpec` | script.js:359-365 | the lookup fails exactly when no group declares the id; otherwise it returns the first node with the id, in group order and then node order |
| `Graph.FindNodeByIdSpec` | src/components/ConstellationMap.js:250-256 | an unknown id gives the origin (0, 0); a known id gives the position of its first node |
| `Graph.FindNodeOfDeclared` | script.js:359-365 | with distinct ids, every node is found by its own id, at its own position |
| `Graph.NodeMapSpec` | script.js:264-267 | the node map's keys are exactly the group's ids; each entry is a node of the group with that id, and for a repeated id the last node wins |
| `Graph.BuildNodeMap` | src/components/ConstellationMap.js:86-89 | the `forEach` loop builds exactly the node map |
| `Graph.ResolveInGroup` | script.js:270-278 | an endpoint held by the link's own group resolves to that node's position (the last node with the id) |
| `Graph.ResolveElsewhere` | script.js:270-278 | an endpoint outside the group falls back to the global lookup, which finds the first declaring node |
| `Graph.ResolveNowhere` | script.js:270-278 | an endpoint that no group declares is drawn at the origin |
| `Graph.DrawLink` | script.js:270-285 | one line, with the endpoints resolved as above |
| `Graph.DrawGroupLinks` | src/components/ConstellationMap.js:92-108 | appends one line per link of the group, in link order; earlier lines are kept |
| `Graph.DrawLinks` | script.js:260-287 | draws one line per link of all groups; link l of group g is line `LinkCount(groups[..g]) + l`, with its resolved endpoints |
| `Graph.FindNodeConstellation` | script.js:396-402 | no key exactly when no group holds the id; otherwise the key of the last group that holds it |
| `Graph.DeclaresSomeGroup` | script.js:359-365 | an id is declared exactly when some group's nodes include it |
| `Graph.PathLines` | src/components/ConstellationMap.js:82-109 | in a group whose links chain its distinct nodes in order, link l is drawn from node l to node l + 1 |
| `Graph.HeldNowhere` | script.js:359-365 | an id that no group holds is undeclared, and the lookup gives the origin |
| `Graph.CrossGroupLine` | script.js:270-278 | a link from outside the group to its first node starts at the global lookup's position and ends at that node |
| `ConstellationData.DataKeys` | src/data/constellationData.js:4-185 | the groups are core, fundamentals, robotics and sensors, with distinct keys |
| `ConstellationData.DataNodeIds` | src/data/constellationData.js:7-190 | the map's 20 node ids, group by group |
| `ConstellationData.DataDistinctNodeIds` | src/data/constellationData.js:7-190 | no two nodes share an id |
| `ConstellationData.DataPaths` | src/data/constellationData.js:100-201 | in every group the ids are distinct and the links join consecutive nodes |
| `ConstellationData.DataLines` | src/data/constellationData.js:100-201 | every link's ends lie in its own group, so each line joins two consecutive nodes and the origin fallback never fires |
| `ConstellationData.DataLinkCount` | src/data/constellationData.js:100-201 | the map draws 16 lines |
| `ConstellationData.DataDifficulties` | src/data/constellationData.js:13-190 | every node states a difficulty from 1 to 6 |
| `ConstellationData.DataSubpages` | src/data/constellationData.js:14-154 | core and fundamentals nodes have four distinct subpages each; robotics and sensors nodes have none |
| `ConstellationData.CircuitsTwice` | src/data/constellationData.js:124-142 | "circuits" is both a subpage of electricity and a node, and the lookup finds the node |
| `ConstellationData.DataPagesWithoutNode` | src/data/navigationData.js:18-58 | nine navigation pages have no node: the group lookup finds none, and `findNodeById` gives the origin |
| `NavigationData.PagePath` | src/components/Sidebar.js:47 | the route is "/page/" followed by the id |
| `NavigationData.PagePathInjective` | src/templates/page-template.js:224-233 | different ids give different routes |
| `NavigationData.FlattenLength` | src/templates/page-template.js:164-169 | the flattened list is as long as all sections' items together |
| `NavigationData.FlattenAt` | src/templates/page-template.js:164-169 | item i of section k sits at position (items of sections before k) + i |
| `NavigationData.DataSections` | src/data/navigationData.js:2-61 | six sections, with their titles in order |
| `NavigationData.DataCounts` | src/data/navigationData.js:2-61 | the sections hold 4, 6, 4, 5, 5 and 4 items, 28 in all |
| `NavigationData.DataIds` | src/data/navigationData.js:6-58 | the 28 page ids in order |
| `NavigationData.DataDistinct` | src/data/navigationData.js:6-58 | the page ids are distinct, from "intro" first to "garden" last |
| `PageNavigation.FlattenPages` | src/templates/page-template.js:164-169 | the nested `push` loops build exactly the flattened list |
| `PageNavigation.FindIndex` | src/templates/page-template.js:172 | -1 exactly when no page has the slug; otherwise the first position that has it |
| `PageNavigation.NeighboursAt` | src/templates/page-template.js:175-176 | previous exists exactly when the index is positive, next exactly when it is below the last position, and each is the adjacent page |
| `PageNavigation.FindPrevNextPages` | src/templates/page-template.js:159-179 | the buttons are the neighbours of the slug's position in the flattened list |
| `PageNavigation.PrevNextFound` | src/templates/page-template.js:172-176 | with distinct ids, page i gets page i - 1 and page i + 1, missing exactly at the ends |
| `PageNavigation.PrevNextNotFound` | src/templates/page-template.js:172-176 | an unknown slug gets no previous page, and the first page as next |
| `PageNavigation.NextThenPrev` | src/templates/page-template.js:172-176 | following "next" and then "previous" returns to the same page |
| `PageNavigation.PrevThenNext` | src/templates/page-template.js:172-176 | following "previous" and then "next" returns to the same page |
| `PageNavigation.ButtonTarget` | src/templates/page-template.js:223-233 | a button exists exactly when its page does, and it links to "/page/" followed by that page's id |
| `PageNavigation.DataEnds` | src/data/navigationData.js:6-58 | "intro" has no previous page and "setup" next; "garden" has no next page and "linerobot" before it |
| `PageNavigation.DataUnknownSlug` | src/templates/page-template.js:172-176 | on the site's navigation, an unknown slug shows only a next button, to "intro" |
| `Sidebar.Without` | src/components/Sidebar.js:11 | the filter keeps exactly the entries other than the index |
| `Sidebar.SectionClassName` | src/components/Sidebar.js:32 | the class is "nav-section open" exactly when the section is open, and always starts with "nav-section " |
| `Sidebar.InitiallyOpen` | src/components/Sidebar.js:6 | on mount, exactly section 0 is open |
| `Sidebar.ToggleFlips` | src/components/Sidebar.js:8-16 | a toggle flips the clicked section and leaves every other section as it was |
| `Sidebar.ToggleAppends` | src/components/Sidebar.js:12-13 | opening a section appends its index and keeps the earlier entries |
| `Sidebar.OpenThenClose` | src/components/Sidebar.js:8-16 | opening a closed section and closing it again restores the exact list |
| `Sidebar.CloseThenOpen` | src/components/Sidebar.js:8-16 | closing an open section and opening it again restores the set of open sections |
| `Sidebar.ToggleKeepsDistinct` | src/components/Sidebar.js:8-16 | a toggle never lists a section twice |
| `Sidebar.WithoutDistinct` | src/components/Sidebar.js:11 | filtering a list without duplicates keeps it without duplicates |
| `Sidebar.ItemRoutes` | src/components/Sidebar.js:44-47 | any two different items of the navigation link to different routes |
| `Selection.NavLinks` | script.js:191-215 | one link per navigation item, in order, with the item's id and a valid section index |
| `Selection.NavLinksAt` | script.js:203-212 | item i of section k is link (items before section k) + i, and it belongs to section k |
| `Selection.Page.constructor` | script.js:188-229 | after `initializeNavigation`, only the first section is open, and nothing is active, selected or dimmed |
| `Selection.Page.ToggleSection` | script.js:222-224 | a title click flips that section's `open` class and changes nothing else |
| `Selection.Page.SelectNode` | script.js:368-415 | exactly the links and nodes with the id are marked; sections are opened exactly where such a link lies; the panel shows the content or the placeholder; only the last group holding the node stays undimmed, and nothing is dimmed when no group holds it |
| `Selection.MarkLinks` | script.js:370-381 | a link is active exactly when its id matches; a section is open exactly when it was open or holds a matching link |
| `Selection.MarkNodes` | script.js:383-385 | a node is selected exactly when its id matches |
| `Selection.DimGroups` | script.js:396-414 | every group is dimmed except the last one holding the node; no group is dimmed when none holds it |
| `ScriptData.DataKeys` | script.js:6-71 | the groups are core, fundamentals, robotics and sensors, with distinct keys |
| `ScriptData.DataNodeIds` | script.js:9-80 | script.js's 23 node ids, group by group, all distinct |
| `ScriptData.DataChains` | script.js:9-87 | in every group the ids are distinct and the first links chain the nodes in order |
| `ScriptData.DataChainLines` | script.js:18-86 | every chain link is drawn between two consecutive nodes of its group |
| `ScriptData.DataCrossLinks` | script.js:46-86 | the three links that leave their group start at intro (0, 0) or hardware (200, 0), found by the global lookup, and end at the group's first node |
| `ScriptData.DataLinkCount` | script.js:18-87 | script.js draws 22 lines |
| `ScriptData.DataOwnGroup` | script.js:396-402 | every node is held by its own group and no later one, so selecting it leaves exactly that group undimmed |
| `ScriptData.DataPagesWithoutNode` | script.js:92-151 | six navigation pages have no node: selecting one dims no group, and `findNodeById` gives the origin |
| `ScriptData.DataContent` | script.js:154-180 | six pages have content; each has a node and a navigation entry |
| `ScriptData.LoadPage` | script.js:345 | on load, "intro" alone is selected, only the core group is undimmed, the first section is open, and the panel shows intro's content |
| `Presentation.StarPointCountSpec` | src/components/ConstellationMap.js:183-184 | a star has (difficulty + 3) points; a missing or zero difficulty gives 6 |
| `Presentation.DataStarPoints` | src/data/constellationData.js:13-190 | every star on the map has 4 to 9 points |
| `Presentation.GenerateStarPoints` | src/components/ConstellationMap.js:279-291 | 2 × points corners, alternating outer (even steps) and inner (odd steps) radius; none when points ≤ 0 |
| `Presentation.NodeStar` | src/components/ConstellationMap.js:182-192 | a node's star has 2 × (difficulty + 3) corners, with radii 12 and 6 |
| `Presentation.FindPageIndex` | src/components/ConstellationMap.js:163 | -1 exactly when no page has the slug; otherwise the first such page |
| `Presentation.FindPage` | src/components/ConstellationMap.js:163 | no data exactly when no page has the node's slug; otherwise a page with that slug |
| `Presentation.CappedSpec` | src/components/ConstellationMap.js:131-134 | the description is at most 150 characters; a short one is unchanged; a long one keeps its first 147 characters and gains "..." |
| `Presentation.CappedIdempotent` | src/components/ConstellationMap.js:131-134 | capping twice is the same as capping once |
| `Presentation.ChosenPrecedence` | src/components/ConstellationMap.js:114-129 | the excerpt wins over the first paragraph, which wins over the fallback text |
| `Presentation.TooltipDescription` | src/components/ConstellationMap.js:112-134 | the handler's steps give the capped chosen description, at most 150 characters |
| `Presentation.NodeTooltip` | src/components/ConstellationMap.js:161-180 | a node's tooltip describes its first matching page, or shows the fallback when none matches |
| `ViewState.DefaultView` | src/components/ConstellationMap.js:244-246 | scale 0.6, with the map's origin at the centre of the view |
| `ViewState.Clamp` | src/components/ConstellationMap.js:54 | the scale stays within [0.2, 3] and is unchanged inside that range |
| `ViewState.ScaleAbout` | src/components/ConstellationMap.js:312 | the new scale is the requested one, and the map point at the centre stays at the centre |
| `ViewState.SaveThenRestore` | src/components/ConstellationMap.js:25-31 | restoring right after saving gives back the saved transform |
| `ViewState.SaveViewStateSpec` | src/components/ConstellationMap.js:25-31 | without a transform nothing is written; with one, restoring gives it back |
| `ViewState.ClearThenRestore` | src/components/ConstellationMap.js:337-340 | after the entries are removed, the default view is restored |
| `ViewState.MissingEntryRestoresDefault` | src/components/ConstellationMap.js:215-236 | if any of the three entries is missing or does not parse, restoring gives the default view |
| `ViewState.OtherEntriesKept` | src/components/ConstellationMap.js:25-31 | saving and clearing touch only the three view entries |
| `ViewState.ScaledUnboundedTwice` | src/components/ConstellationMap.js:310-334 | two unclamped zooms about the centre equal one zoom by the product of their factors |
| `ViewState.ScaledClampedInExtent` | src/components/ConstellationMap.js:53-54 | a zoom by the map's own behaviour stays in the scale extent, and inside it equals the unclamped zoom |
| `ViewState.MapView.constructor` | src/components/ConstellationMap.js:10-68 | after mounting, the restored view is drawn, d3 agrees with the screen, and the tooltip is hidden |
| `ViewState.MapView.ZoomEvent` | src/components/ConstellationMap.js:55-64 | the transform is stored and drawn and the tooltip is hidden; it is saved only for a user event |
| `ViewState.MapView.UserZoom` | src/components/ConstellationMap.js:53-64 | a gesture's transform, at any positive scale (a drag keeps a stored scale outside the extent), is drawn and saved, so a later restore brings it back |
| `ViewState.MapView.ResetView` | src/components/ConstellationMap.js:238-248 | the default view is drawn, and nothing is saved |
| `ViewState.MapView.RestoreView` | src/components/ConstellationMap.js:215-236 | the saved view, or the default one, is drawn, and storage is unchanged |
| `ViewState.MapView.ClickNode` | src/components/ConstellationMap.js:169-176 | the current transform is saved, and the map navigates to "/page/" + id; the view is unchanged |
| `ViewState.MapView.ShowTooltip` | src/components/ConstellationMap.js:177-180 | the tooltip becomes visible; nothing else changes |
| `ViewState.MapView.HideTooltip` | src/components/ConstellationMap.js:152-154 | the tooltip is hidden; nothing else changes |
| `ViewState.MapView.ZoomButtonAsWritten` | src/components/ConstellationMap.js:310-334 | the button as written scales d3's stored transform and saves it but leaves the screen alone; from a synchronised view, the screen then matches neither |
| `ViewState.MapView.HandleZoomInAsWritten` | src/components/ConstellationMap.js:310-321 | as written: d3's stored transform becomes the unclamped 1.3× zoom about the centre and is saved, while the drawn view, the tooltip and the location stay put; a synchronised view falls out of sync |
| `ViewState.MapView.HandleZoomOutAsWritten` | src/components/ConstellationMap.js:323-334 | as written: d3's stored transform becomes the unclamped 0.7× zoom about the centre and is saved, while the drawn view, the tooltip and the location stay put; a synchronised view falls out of sync |
| `ViewState.MapView.HandleResetViewAsWritten` | src/components/ConstellationMap.js:336-351 | as written: the entries are cleared and d3 stores the default view, but the screen keeps the old one |
| `ViewState.MapView.ZoomButton` | src/components/ConstellationMap.js:310-334 | corrected: the clamped zoom is stored, drawn and saved, and a later restore gives it back |
| `ViewState.MapView.HandleZoomIn` | src/components/ConstellationMap.js:310-321 | corrected: zoom in by 1.3 about the centre, clamped to [0.2, 3], stored, drawn and saved (other entries kept); the tooltip is hidden and the location unchanged |
| `ViewState.MapView.HandleZoomOut` | src/components/ConstellationMap.js:323-334 | corrected: zoom out by 0.7 about the centre, clamped to [0.2, 3], stored, drawn and saved (other entries kept); the tooltip is hidden and the location unchanged |
| `ViewState.MapView.HandleResetView` | src/components/ConstellationMap.js:336-351 | corrected: the entries are cleared and the default view is drawn; a later restore gives the default view too |
| `ViewState.ZoomInCounterexample` | src/components/ConstellationMap.js:310-321 | on a map of any size (800 × 600, say) with nothing saved, zoom-in as written leaves the default view on screen while the stored and saved scale is 0.78 |
| `ViewState.ResetCounterexample` | src/components/ConstellationMap.js:336-351 | on a map restored to (10, 20, 2), reset as written leaves that view on screen while d3 stores the default view |

## Left out

- Drawing is not modelled: SVG elements, colours, labels and the star corners' sine and cosine
  coordinates. A star corner keeps only its radius and step index. The background stars use
  randomness and are not modelled either.
- The tooltip's mouse position and markup are left out. Only its visibility and description
  text are modelled.
- Finding the first `<p>` of the page HTML is not modelled. The result of that query is an
  input, `PageData.firstParagraph`.
- `ScriptData` keeps only the titles of script.js's `nodeContent` entries, not their HTML
  bodies. `Selection` works for any content table.
- `localStorage` holds strings that `parseFloat` reads back. Here it is a map from keys to
  parsed numbers (`None` for text that is not a number). JavaScript's number-to-string round
  trip is taken to be exact.
- Numbers are modelled as unbounded integers (node positions) and reals (transforms). IEEE
  rounding and NaN are not modelled.
- d3 transitions, easing and the 350 ms timer are collapsed into one synchronous step that
  ends in the final state. The `console.log` call is left out.
- The user's wheel, drag and pinch gestures are not modelled. The transform that d3 computes
  for them is the input of `ViewState.MapView.UserZoom`.
- Window resizing, and the React effect's cleanup and re-run, are not modelled. The map's size
  is fixed at mount.
- Gatsby routing is left out. `navigate` is modelled as the `location` field, and `Link`/
  `NavButton` as their target routes.
- React and GraphQL plumbing are left out, along with the section redirect, `gatsby-node.js`
  and the index page.
- script.js's own zoom buttons and `resetView` are not modelled separately. They act through the
  map's listening zoom behaviour, as `ViewState.MapView.HandleZoomIn` and `ResetView` do, but
  without storage.
- JavaScript objects used as maps (`nodeMap`, `nodeContent`) are modelled as plain maps. Ids
  that are `Object.prototype` property names (such as "constructor") are not modelled.
- Selection.DimGroups: script.js tests `if (nodeConstellation)`, which would treat a group with
  an empty key as "not found". The model compares against the key itself. No group of the site
  has an empty key (`ScriptData.DataKeys`).
- ViewState.MapView.constructor: it requires any stored scale to be positive. The site's own code
  never stores a zero or negative scale. One written by other code is not modelled: a zero scale
  would make the next button zoom divide by zero in d3, and a negative one would mirror the view.
- Selection.Page.constructor: it requires a non-empty navigation. With no sections, script.js's
  `document.querySelector('.nav-section')` is null and `initializeNavigation` throws; that
  exception is not modelled.
- Presentation.Capped: lengths count Unicode scalar values (Dafny's `string`), while
  `description.length` and `substring(0, 147)` count UTF-16 code units. The two agree for text in
  the Basic Multilingual Plane. Outside it they differ: a description with an emoji can be cut by
  the source but not by the model, or at a different place, and the source can split a surrogate
  pair, which the model cannot.
- Presentation.StarPointCount: difficulties are integers. JavaScript's `||` on other falsy
  values (NaN, "") is not modelled.

## Findings

| source | as written | input that shows it | evidently intended | confidence | as-written member | corrected member |
|---|---|---|---|---|---|---|
| src/components/ConstellationMap.js:310-334 | The zoom buttons call `scaleBy` of a new `d3.zoom()`. That behaviour has no `zoom` listener, so it changes only the svg's stored transform; the container is not redrawn. The timer then saves that undrawn transform. | Mount an 800 × 600 map with empty storage, then press "+". The screen still shows (400, 300, 0.6), while d3 and `localStorage` hold scale 0.78. | Zoom the drawn map by 1.3 or 0.7 through the map's own clamped behaviour, as script.js:334-340 does. | medium; not executed | `ViewState.ZoomInCounterexample` (with `ViewState.MapView.HandleZoomInAsWritten`) | `ViewState.MapView.HandleZoomIn` |
| src/components/ConstellationMap.js:336-351 | The reset button applies the default view through a new `d3.zoom()`. The saved entries are cleared, but the drawn view stays where it was. | Mount with a saved view (10, 20, 2), then press "Reset". The screen keeps (10, 20, 2) while d3 stores the default view. | Draw the default view, as `resetView` at src/components/ConstellationMap.js:238-248 does. | medium; not executed | `ViewState.ResetCounterexample` (with `ViewState.MapView.HandleResetViewAsWritten`) | `ViewState.MapView.HandleResetView` |
