/**
 * The React sidebar (src/components/Sidebar.js): its state is the list `openSections` of the
 * indices of the open sections; clicking a section title toggles that index in the list.
 */
module Sidebar {
  import opened Wrappers
  import opened NavigationData

  /** `useState([0])`: the first section is open when the sidebar mounts. */
  const InitialOpenSections: seq<int> := [0]

  /** `prev.filter(i => i !== index)`: every occurrence of `index` removed, the rest kept in order. */
  function Without(open: seq<int>, index: int): (r: seq<int>)
    ensures |r| <= |open|
    ensures forall i :: i in r <==> i in open && i != index
  {
    if |open| == 0 then []
    else (if open[0] == index then [] else [open[0]]) + Without(open[1..], index)
  }

  /** `toggleSection(index)`: remove the index when it is listed, otherwise append it. */
  function Toggle(open: seq<int>, index: int): seq<int> {
    if index in open then Without(open, index) else open + [index]
  }

  /** Whether section `index` renders with the class `open`. */
  predicate IsOpen(open: seq<int>, index: int) {
    index in open
  }

  /** The rendered class of section `index`: `nav-section open` or `nav-section ` (trailing blank). */
  function SectionClassName(open: seq<int>, index: int): (className: string)
    ensures className == "nav-section open" <==> IsOpen(open, index)
    ensures |className| >= 12 && className[..12] == "nav-section "
  {
    "nav-section " + (if index in open then "open" else "")
  }

  /** Exactly the first section is open after mounting. */
  lemma InitiallyOpen(index: int)
    ensures IsOpen(InitialOpenSections, index) <==> index == 0
  {
  }

  /**
   * A toggle flips the clicked section between open and closed and leaves every other section
   * as it was.
   */
  lemma ToggleFlips(open: seq<int>, index: int, other: int)
    requires other != index
    ensures IsOpen(Toggle(open, index), index) <==> !IsOpen(open, index)
    ensures IsOpen(Toggle(open, index), other) <==> IsOpen(open, other)
  {
  }

  /** Opening a section appends it at the end of the list; the earlier entries are unchanged. */
  lemma ToggleAppends(open: seq<int>, index: int)
    requires !IsOpen(open, index)
    ensures |Toggle(open, index)| == |open| + 1
    ensures Toggle(open, index)[..|open|] == open && Toggle(open, index)[|open|] == index
  {
  }

  /** Removing an index that is not listed changes nothing. */
  lemma {:induction false} WithoutAbsent(open: seq<int>, index: int)
    requires index !in open
    ensures Without(open, index) == open
  {
    if |open| > 0 {
      assert open[0] != index;
      WithoutAbsent(open[1..], index);
      assert [open[0]] + open[1..] == open;
    }
  }

  /** Filtering distributes over concatenation. */
  lemma {:induction false} WithoutAppend(a: seq<int>, b: seq<int>, index: int)
    ensures Without(a + b, index) == Without(a, index) + Without(b, index)
  {
    if |a| == 0 {
      assert a + b == b;
    } else {
      assert (a + b)[0] == a[0] && (a + b)[1..] == a[1..] + b;
      WithoutAppend(a[1..], b, index);
    }
  }

  /** Opening a closed section and then closing it again restores the very same list. */
  lemma OpenThenClose(open: seq<int>, index: int)
    requires !IsOpen(open, index)
    ensures Toggle(Toggle(open, index), index) == open
  {
    assert index in open + [index];
    WithoutAppend(open, [index], index);
    WithoutAbsent(open, index);
    assert Without([index], index) == [];
  }

  /** Closing an open section and opening it again yields the same set of open sections. */
  lemma CloseThenOpen(open: seq<int>, index: int, other: int)
    requires IsOpen(open, index)
    ensures IsOpen(Toggle(Toggle(open, index), index), other) <==> IsOpen(open, other)
  {
  }

  /** Toggling never lists a section twice when it was listed at most once before. */
  lemma ToggleKeepsDistinct(open: seq<int>, index: int)
    requires Distinct(open)
    ensures Distinct(Toggle(open, index))
  {
    if index in open {
      WithoutDistinct(open, index);
    }
  }

  /** Filtering a list without duplicates leaves a list without duplicates. */
  lemma {:induction false} WithoutDistinct(open: seq<int>, index: int)
    requires Distinct(open)
    ensures Distinct(Without(open, index))
  {
    if |open| > 0 {
      var rest := open[1..];
      assert Distinct(rest) by {
        forall i, j | 0 <= i < j < |rest|
          ensures rest[i] != rest[j]
        {
          assert rest[i] == open[i + 1] && rest[j] == open[j + 1];
        }
      }
      WithoutDistinct(rest, index);
      assert open[0] !in rest by {
        forall j | 0 <= j < |rest|
          ensures rest[j] != open[0]
        {
          assert rest[j] == open[j + 1];
        }
      }
    }
  }

  /**
   * Every item of every section links to its page's route, and different items of the site's
   * navigation link to different routes.
   */
  lemma ItemRoutes(k: nat, i: nat, k2: nat, i2: nat)
    requires k < |NavigationStructure| && i < |NavigationStructure[k].items|
    requires k2 < |NavigationStructure| && i2 < |NavigationStructure[k2].items|
    requires (k, i) != (k2, i2)
    ensures PagePath(NavigationStructure[k].items[i].id) != PagePath(NavigationStructure[k2].items[i2].id)
  {
    var s := NavigationStructure;
    FlattenAt(s, k, i);
    FlattenAt(s, k2, i2);
    DataDistinct();
    var p := ItemCount(s[..k]) + i;
    var p2 := ItemCount(s[..k2]) + i2;
    assert p != p2 by {
      if k < k2 {
        ItemCountMonotone(s, k, k2);
      } else if k2 < k {
        ItemCountMonotone(s, k2, k);
      }
    }
    assert Ids(Flatten(s))[p] != Ids(Flatten(s))[p2];
    if PagePath(s[k].items[i].id) == PagePath(s[k2].items[i2].id) {
      PagePathInjective(s[k].items[i].id, s[k2].items[i2].id);
    }
  }
}
