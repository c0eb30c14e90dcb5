/**
 * The previous / next buttons of a documentation page (src/templates/page-template.js): the
 * navigation structure is flattened into one page list, the current page is looked up by its
 * slug, and its neighbours in that list become the buttons.
 */
module PageNavigation {
  import opened Wrappers
  import opened NavigationData

  /** The page list, built by pushing every item of every section in order. */
  method FlattenPages(sections: seq<Section>) returns (allPages: seq<Item>)
    ensures allPages == Flatten(sections)
  {
    allPages := [];
    var k := 0;
    while k < |sections|
      invariant 0 <= k <= |sections|
      invariant allPages == Flatten(sections[..k])
    {
      var items := sections[k].items;
      var j := 0;
      while j < |items|
        invariant 0 <= j <= |items|
        invariant allPages == Flatten(sections[..k]) + items[..j]
      {
        allPages := allPages + [items[j]];
        j := j + 1;
      }
      assert items[..j] == items;
      FlattenStep(sections, k);
      k := k + 1;
    }
    assert sections[..k] == sections;
  }

  /** `findIndex(page => page.id === slug)`: the first page with this id, or -1 when there is none. */
  function FindIndex(pages: seq<Item>, slug: string): (r: int)
    ensures -1 <= r < |pages|
    ensures r == -1 <==> forall i :: 0 <= i < |pages| ==> pages[i].id != slug
    ensures r >= 0 ==> pages[r].id == slug && forall i :: 0 <= i < r ==> pages[i].id != slug
  {
    if |pages| == 0 then -1
    else if pages[0].id == slug then 0
    else
      var r := FindIndex(pages[1..], slug);
      if r == -1 then -1 else r + 1
  }

  /** The two buttons: a missing neighbour is `null` and draws no button. */
  datatype Neighbours = Neighbours(prev: Option<Item>, next: Option<Item>)

  /**
   * The neighbours of position `index` (-1 when the page was not found): the page before it when
   * the index is positive, the page after it when the index is below the last position.
   */
  function NeighboursAt(pages: seq<Item>, index: int): (n: Neighbours)
    requires -1 <= index < |pages|
    ensures n.prev.Some? <==> index > 0
    ensures n.next.Some? <==> index < |pages| - 1
    ensures n.prev.Some? ==> n.prev.value == pages[index - 1]
    ensures n.next.Some? ==> n.next.value == pages[index + 1]
  {
    Neighbours(if index > 0 then Some(pages[index - 1]) else None,
               if index < |pages| - 1 then Some(pages[index + 1]) else None)
  }

  /** `findPrevNextPages` on a page list. */
  function PrevNext(pages: seq<Item>, slug: string): Neighbours {
    NeighboursAt(pages, FindIndex(pages, slug))
  }

  /** `findPrevNextPages`: flatten, look the slug up, take its neighbours. */
  method FindPrevNextPages(sections: seq<Section>, slug: string) returns (prevPage: Option<Item>, nextPage: Option<Item>)
    ensures Neighbours(prevPage, nextPage) == PrevNext(Flatten(sections), slug)
  {
    var allPages := FlattenPages(sections);
    var currentIndex := FindIndex(allPages, slug);
    prevPage := if currentIndex > 0 then Some(allPages[currentIndex - 1]) else None;
    nextPage := if currentIndex < |allPages| - 1 then Some(allPages[currentIndex + 1]) else None;
  }

  /**
   * For a page that is in the list (ids distinct): the previous button leads to the page just
   * before it and the next button to the page just after it, each missing exactly at the ends.
   */
  lemma PrevNextFound(pages: seq<Item>, i: nat)
    requires Distinct(Ids(pages)) && i < |pages|
    ensures PrevNext(pages, pages[i].id).prev == (if i > 0 then Some(pages[i - 1]) else None)
    ensures PrevNext(pages, pages[i].id).next == (if i + 1 < |pages| then Some(pages[i + 1]) else None)
  {
  }

  /**
   * A slug that is not in the list gets index -1: no previous button, and a next button that
   * leads to the first page (whenever there is one).
   */
  lemma PrevNextNotFound(pages: seq<Item>, slug: string)
    requires forall i :: 0 <= i < |pages| ==> pages[i].id != slug
    ensures PrevNext(pages, slug).prev == None
    ensures PrevNext(pages, slug).next == (if |pages| > 0 then Some(pages[0]) else None)
  {
  }

  /** With distinct ids, following "next" and then "previous" comes back to the same page. */
  lemma {:induction false} NextThenPrev(pages: seq<Item>, i: nat)
    requires Distinct(Ids(pages)) && i < |pages|
    requires PrevNext(pages, pages[i].id).next.Some?
    ensures PrevNext(pages, PrevNext(pages, pages[i].id).next.value.id).prev == Some(pages[i])
  {
    PrevNextFound(pages, i);
    PrevNextFound(pages, i + 1);
  }

  /** With distinct ids, following "previous" and then "next" comes back to the same page. */
  lemma {:induction false} PrevThenNext(pages: seq<Item>, i: nat)
    requires Distinct(Ids(pages)) && i < |pages|
    requires PrevNext(pages, pages[i].id).prev.Some?
    ensures PrevNext(pages, PrevNext(pages, pages[i].id).prev.value.id).next == Some(pages[i])
  {
    PrevNextFound(pages, i);
    PrevNextFound(pages, i - 1);
  }

  /** The route of a button: `/page/{id}` of its page, no route when there is no button. */
  function ButtonTarget(page: Option<Item>): (to: Option<string>)
    ensures to.Some? <==> page.Some?
    ensures to.Some? ==> |to.value| >= 6 && to.value[..6] == "/page/" && to.value[6..] == page.value.id
  {
    match page
    case Some(p) => Some(PagePath(p.id))
    case None => None
  }

  /**
   * On the site's navigation: the first page "intro" has no previous page and leads on to
   * "setup"; the last page "garden" has no next page and leads back to "linerobot".
   */
  lemma DataEnds()
    ensures PrevNext(Flatten(NavigationStructure), "intro").prev == None
    ensures PrevNext(Flatten(NavigationStructure), "intro").next.value.id == "setup"
    ensures PrevNext(Flatten(NavigationStructure), "garden").next == None
    ensures PrevNext(Flatten(NavigationStructure), "garden").prev.value.id == "linerobot"
  {
    var pages := Flatten(NavigationStructure);
    DataDistinct();
    DataIds();
    PrevNextFound(pages, 0);
    PrevNextFound(pages, 27);
    assert pages[1].id == Ids(pages)[1];
    assert pages[26].id == Ids(pages)[26];
  }

  /** On the site's navigation, a slug that is no navigation page leads on to "intro" only. */
  lemma DataUnknownSlug(slug: string)
    requires slug !in Ids(Flatten(NavigationStructure))
    ensures PrevNext(Flatten(NavigationStructure), slug) ==
      Neighbours(None, Some(Flatten(NavigationStructure)[0]))
    ensures Flatten(NavigationStructure)[0].id == "intro"
  {
    var pages := Flatten(NavigationStructure);
    DataDistinct();
    forall i | 0 <= i < |pages|
      ensures pages[i].id != slug
    {
      assert pages[i].id == Ids(pages)[i];
    }
    PrevNextNotFound(pages, slug);
  }
}
