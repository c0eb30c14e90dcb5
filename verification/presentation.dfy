/**
 * What the React map draws for one node (src/components/ConstellationMap.js): the star whose
 * number of points follows the node's difficulty, and the tooltip text taken from the node's
 * markdown page.
 */
module Presentation {
  import opened Wrappers
  import opened Graph
  import ConstellationData

  /** The difficulty used when a node states none (or states 0): `node.difficulty || 3`. */
  const DefaultDifficulty := 3
  /** The star's outer and inner radii. */
  const OuterRadius := 12
  const InnerRadius := 6
  /** The tooltip's length limit, and the length a longer description is cut to before "...". */
  const MaxDescription := 150
  const CutLength := 147
  const NoDescription := "No description available"

  /** The number of star points: difficulty plus three, where a missing or zero difficulty is 3. */
  function StarPointCount(difficulty: Option<int>): int {
    (match difficulty
     case Some(d) => if d == 0 then DefaultDifficulty else d
     case None => DefaultDifficulty) + 3
  }

  /** A stated nonzero difficulty gives that many points plus three; otherwise the star has six. */
  lemma StarPointCountSpec(difficulty: Option<int>)
    ensures difficulty.Some? && difficulty.value != 0 ==> StarPointCount(difficulty) == difficulty.value + 3
    ensures difficulty.None? || difficulty.value == 0 ==> StarPointCount(difficulty) == 6
    ensures difficulty.Some? && difficulty.value >= 1 ==> StarPointCount(difficulty) >= 4
  {
  }

  /** Every node of the map states a difficulty from 1 to 6, so its star has from 4 to 9 points. */
  lemma DataStarPoints()
    ensures forall g, i :: 0 <= g < |ConstellationData.Groups| && 0 <= i < |ConstellationData.Groups[g].nodes| ==>
      4 <= StarPointCount(ConstellationData.Groups[g].nodes[i].difficulty) <= 9
  {
    ConstellationData.DataDifficulties();
  }

  /** One corner of the star polygon: its radius and its index i (the angle is i * pi / points). */
  datatype Vertex = Vertex(radius: int, step: nat)

  /**
   * `generateStarPoints`: 2 * points corners, alternating between the outer radius (even
   * steps) and the inner radius (odd steps); no corner at all when points is not positive.
   */
  method GenerateStarPoints(points: int, outerRadius: int, innerRadius: int) returns (vertices: seq<Vertex>)
    ensures points <= 0 ==> vertices == []
    ensures points > 0 ==> |vertices| == 2 * points
    ensures forall i :: 0 <= i < |vertices| ==>
      vertices[i].step == i && vertices[i].radius == (if i % 2 == 0 then outerRadius else innerRadius)
  {
    vertices := [];
    var i := 0;
    while i < points * 2
      invariant 0 <= i && |vertices| == i
      invariant points > 0 ==> i <= 2 * points
      invariant points <= 0 ==> i == 0
      invariant forall j :: 0 <= j < i ==>
        vertices[j].step == j && vertices[j].radius == (if j % 2 == 0 then outerRadius else innerRadius)
    {
      var radius := if i % 2 == 0 then outerRadius else innerRadius;
      vertices := vertices + [Vertex(radius, i)];
      i := i + 1;
    }
  }

  /** The star of a node: difficulty-driven point count, radii 12 and 6. */
  method NodeStar(node: Node) returns (vertices: seq<Vertex>)
    ensures |vertices| == 2 * StarPointCount(node.difficulty) || (StarPointCount(node.difficulty) <= 0 && vertices == [])
    ensures forall i :: 0 <= i < |vertices| ==> vertices[i].radius == (if i % 2 == 0 then OuterRadius else InnerRadius)
  {
    vertices := GenerateStarPoints(StarPointCount(node.difficulty), OuterRadius, InnerRadius);
  }

  /**
   * The markdown data of a page, as far as the tooltip reads it: the excerpt, the HTML body,
   * and the text of the body's first `<p>` element (None when it has none).
   */
  datatype PageData = PageData(slug: string, excerpt: string, html: string, firstParagraph: Option<string>)

  /** The position of the first page with this slug, or -1 when there is none. */
  function FindPageIndex(pages: seq<PageData>, id: string): (r: int)
    ensures -1 <= r < |pages|
    ensures r == -1 <==> forall i :: 0 <= i < |pages| ==> pages[i].slug != id
    ensures r >= 0 ==> pages[r].slug == id && forall i :: 0 <= i < r ==> pages[i].slug != id
  {
    if |pages| == 0 then -1
    else if pages[0].slug == id then 0
    else
      var r := FindPageIndex(pages[1..], id);
      if r == -1 then -1 else r + 1
  }

  /** `nodes.find(n => n.frontmatter.slug === node.id)`: the first page with this slug. */
  function FindPage(pages: seq<PageData>, id: string): (r: Option<PageData>)
    ensures r.None? <==> forall i :: 0 <= i < |pages| ==> pages[i].slug != id
    ensures r.Some? ==> r.value.slug == id
  {
    var i := FindPageIndex(pages, id);
    if i == -1 then None else Some(pages[i])
  }

  /**
   * The description before the length limit: the excerpt when it is non-empty, else the first
   * paragraph's text when the HTML is non-empty and has a paragraph, else the fallback text.
   */
  function Chosen(data: Option<PageData>): string {
    match data
    case None => NoDescription
    case Some(d) =>
      if d.excerpt != "" then d.excerpt
      else if d.html != "" && d.firstParagraph.Some? then d.firstParagraph.value
      else NoDescription
  }

  /** The length limit: a description over 150 characters keeps its first 147 and gains "...". */
  function Capped(description: string): string {
    if |description| > MaxDescription then description[..CutLength] + "..." else description
  }

  /** The tooltip text: never longer than 150; unchanged when short; otherwise a prefix and "...". */
  lemma CappedSpec(description: string)
    ensures |Capped(description)| <= MaxDescription
    ensures |description| <= MaxDescription ==> Capped(description) == description
    ensures |description| > MaxDescription ==>
      |Capped(description)| == MaxDescription &&
      Capped(description)[..CutLength] == description[..CutLength] &&
      Capped(description)[CutLength..] == "..."
  {
  }

  /** Capping twice is capping once. */
  lemma CappedIdempotent(description: string)
    ensures Capped(Capped(description)) == Capped(description)
  {
    CappedSpec(description);
  }

  /** Which source wins: the excerpt over the paragraph, the paragraph over the fallback. */
  lemma ChosenPrecedence(d: PageData)
    ensures d.excerpt != "" ==> Chosen(Some(d)) == d.excerpt
    ensures d.excerpt == "" && d.html != "" && d.firstParagraph.Some? ==>
      Chosen(Some(d)) == d.firstParagraph.value
    ensures d.excerpt == "" && (d.html == "" || d.firstParagraph.None?) ==> Chosen(Some(d)) == NoDescription
    ensures Chosen(None) == NoDescription
  {
  }

  /** `showTooltip`'s description, step by step as the handler computes it. */
  method TooltipDescription(data: Option<PageData>) returns (description: string)
    ensures description == Capped(Chosen(data))
    ensures |description| <= MaxDescription
  {
    description := NoDescription;
    if data.Some? {
      var d := data.value;
      if d.excerpt != "" {
        description := d.excerpt;
      } else if d.html != "" {
        if d.firstParagraph.Some? {
          description := d.firstParagraph.value;
        }
      }
    }
    if |description| > MaxDescription {
      description := description[..CutLength] + "...";
    }
    CappedSpec(Chosen(data));
  }

  /** The tooltip of a node: the description of the first page whose slug is the node's id. */
  method NodeTooltip(pages: seq<PageData>, node: Node) returns (description: string)
    ensures description == Capped(Chosen(FindPage(pages, node.id)))
    ensures (forall i :: 0 <= i < |pages| ==> pages[i].slug != node.id) ==> description == NoDescription
  {
    description := TooltipDescription(FindPage(pages, node.id));
  }
}
