/**
 * The pan / zoom state of the React constellation map (src/components/ConstellationMap.js).
 *
 * Three things hold a view transform: the `__zoom` property d3 keeps on the svg element (what
 * `d3.zoomTransform(svg.node())` returns and what the next gesture starts from), the `transform`
 * attribute of the container group (what is drawn), and three `localStorage` entries that
 * survive navigation. The map's zoom behaviour copies every transform it applies to the drawn
 * container, so the first two agree; the zoom and reset buttons, as written, go through a fresh
 * `d3.zoom()` whose events reach no listener and so change only the first.
 */
module ViewState {
  import opened Wrappers
  import opened NavigationData

  /** A d3 zoom transform: screen = map * k + (x, y). */
  datatype Transform = Transform(x: real, y: real, k: real)

  datatype Point = Point(x: real, y: real)

  const Identity := Transform(0.0, 0.0, 1.0)

  /** The `scaleExtent` of the map's zoom behaviour. */
  const MinScale: real := 0.2
  const MaxScale: real := 3.0
  /** The factors of the zoom-in and zoom-out buttons. */
  const ZoomInFactor: real := 1.3
  const ZoomOutFactor: real := 0.7
  /** The scale of the default view. */
  const DefaultScale: real := 0.6

  /** The localStorage keys of the saved view. */
  const KeyX := "constellation_x"
  const KeyY := "constellation_y"
  const KeyK := "constellation_k"

  /** `d3.zoomIdentity.translate(width / 2, height / 2).scale(0.6)`: the map centred at scale 0.6. */
  function DefaultView(width: real, height: real): (t: Transform)
    ensures t.k == DefaultScale && Apply(t, Point(0.0, 0.0)) == Point(width / 2.0, height / 2.0)
  {
    Transform(width / 2.0, height / 2.0, DefaultScale)
  }

  /** Where a map point is drawn on screen under a transform. */
  function Apply(t: Transform, p: Point): Point {
    Point(p.x * t.k + t.x, p.y * t.k + t.y)
  }

  /** `transform.invert(p)`: the map point drawn at screen point p. */
  function Invert(t: Transform, p: Point): (q: Point)
    requires t.k > 0.0
    ensures Apply(t, q) == p
  {
    DivThenMul(p.x - t.x, t.k);
    DivThenMul(p.y - t.y, t.k);
    Point((p.x - t.x) / t.k, (p.y - t.y) / t.k)
  }

  lemma DivThenMul(a: real, k: real)
    requires k > 0.0
    ensures (a / k) * k == a
  {
  }

  /**
   * The parsed `localStorage`: a key maps to the number its string parses to, or to None when
   * the string does not parse (`parseFloat` gives NaN); a removed key is absent.
   */
  type Storage = map<string, Option<real>>

  /** The three entries set to the transform's numbers, every other entry kept. */
  function Saved(storage: Storage, t: Transform): Storage {
    storage[KeyX := Some(t.x)][KeyY := Some(t.y)][KeyK := Some(t.k)]
  }

  /** `saveViewState(transform)`: saves only when there is a transform. */
  function SaveViewState(storage: Storage, transform: Option<Transform>): Storage {
    match transform
    case Some(t) => Saved(storage, t)
    case None => storage
  }

  /** The three `removeItem` calls of the reset button. */
  function Cleared(storage: Storage): Storage {
    storage - {KeyX, KeyY, KeyK}
  }

  /** The entry of a key parsed as a number: None when it is absent or does not parse. */
  function Parsed(storage: Storage, key: string): Option<real> {
    if key in storage then storage[key] else None
  }

  /** The saved view, when all three entries parse as numbers. */
  function StoredView(storage: Storage): Option<Transform> {
    var x, y, k := Parsed(storage, KeyX), Parsed(storage, KeyY), Parsed(storage, KeyK);
    if x.Some? && y.Some? && k.Some? then Some(Transform(x.value, y.value, k.value)) else None
  }

  /** `restoreView`: the saved view, or the default view when any entry is missing. */
  function Restored(storage: Storage, width: real, height: real): Transform {
    StoredView(storage).GetOr(DefaultView(width, height))
  }

  /** A stored scale, when there is one, is positive. */
  predicate ScalePositive(storage: Storage) {
    Parsed(storage, KeyK).Some? ==> Parsed(storage, KeyK).value > 0.0
  }

  /** The scale clamped to the map behaviour's `scaleExtent`. */
  function Clamp(k: real): (c: real)
    ensures MinScale <= c <= MaxScale
    ensures MinScale <= k <= MaxScale ==> c == k
  {
    if k < MinScale then MinScale else if k > MaxScale then MaxScale else k
  }

  /** The centre of the svg's extent, around which `scaleBy` zooms. */
  function Centre(width: real, height: real): Point {
    Point(width / 2.0, height / 2.0)
  }

  /**
   * `scaleTo(k1)` around the centre: the new scale is k1 and the map point that was drawn at
   * the centre stays there.
   */
  function ScaleAbout(t: Transform, k1: real, width: real, height: real): (r: Transform)
    requires t.k > 0.0 && k1 > 0.0
    ensures r.k == k1
    ensures Apply(r, Invert(t, Centre(width, height))) == Centre(width, height)
  {
    var c := Centre(width, height);
    var p := Invert(t, c);
    Transform(c.x - p.x * k1, c.y - p.y * k1, k1)
  }

  /** `scaleBy(factor)` of a fresh `d3.zoom()`, whose scale extent is unbounded. */
  function ScaledUnbounded(t: Transform, factor: real, width: real, height: real): Transform
    requires t.k > 0.0 && factor > 0.0
  {
    ScaleAbout(t, t.k * factor, width, height)
  }

  /** `scaleBy(factor)` of the map's own zoom behaviour, whose scale is clamped to [0.2, 3]. */
  function ScaledClamped(t: Transform, factor: real, width: real, height: real): Transform
    requires t.k > 0.0 && factor > 0.0
  {
    ScaleAbout(t, Clamp(t.k * factor), width, height)
  }

  /** Restoring right after saving gives back the saved transform. */
  lemma SaveThenRestore(storage: Storage, t: Transform, width: real, height: real)
    ensures Restored(Saved(storage, t), width, height) == t
  {
  }

  /** Without a transform nothing is written; with one, restoring gives it back. */
  lemma SaveViewStateSpec(storage: Storage, transform: Option<Transform>, width: real, height: real)
    ensures transform.None? ==> SaveViewState(storage, transform) == storage
    ensures transform.Some? ==> Restored(SaveViewState(storage, transform), width, height) == transform.value
  {
    if transform.Some? {
      SaveThenRestore(storage, transform.value, width, height);
    }
  }

  /** After the entries are cleared the default view is restored, whatever was saved before. */
  lemma ClearThenRestore(storage: Storage, width: real, height: real)
    ensures Restored(Cleared(storage), width, height) == DefaultView(width, height)
  {
    assert KeyX !in Cleared(storage);
  }

  /** A storage where any one of the three entries is missing or unparsable restores the default view. */
  lemma MissingEntryRestoresDefault(storage: Storage, width: real, height: real)
    requires Parsed(storage, KeyX).None? || Parsed(storage, KeyY).None? || Parsed(storage, KeyK).None?
    ensures Restored(storage, width, height) == DefaultView(width, height)
  {
  }

  /** Saving and clearing touch only the three view entries. */
  lemma OtherEntriesKept(storage: Storage, t: Transform, key: string)
    requires key != KeyX && key != KeyY && key != KeyK
    ensures key in Saved(storage, t) <==> key in storage
    ensures key in Cleared(storage) <==> key in storage
    ensures key in storage ==> Saved(storage, t)[key] == storage[key] && Cleared(storage)[key] == storage[key]
  {
  }

  /** Saving a transform of positive scale keeps every stored scale positive. */
  lemma SavedScalePositive(storage: Storage, t: Transform)
    requires t.k > 0.0
    ensures ScalePositive(Saved(storage, t)) && ScalePositive(Cleared(storage))
  {
  }

  /** Two unbounded scalings around the same centre make one scaling by the product. */
  lemma ScaledUnboundedTwice(t: Transform, a: real, b: real, width: real, height: real)
    requires t.k > 0.0 && a > 0.0 && b > 0.0
    ensures ScaledUnbounded(ScaledUnbounded(t, a, width, height), b, width, height)
      == ScaledUnbounded(t, a * b, width, height)
  {
    var c := Centre(width, height);
    var t1 := ScaledUnbounded(t, a, width, height);
    var p := Invert(t, c);
    assert c.x - t1.x == p.x * t1.k && c.y - t1.y == p.y * t1.k;
    assert (p.x * t1.k) / t1.k == p.x && (p.y * t1.k) / t1.k == p.y;
    assert Invert(t1, c) == p;
  }

  /** A factor other than 1 changes a positive scale. */
  lemma ScaleChanges(t: Transform, factor: real, width: real, height: real)
    requires t.k > 0.0 && factor > 0.0 && factor != 1.0
    ensures ScaledUnbounded(t, factor, width, height).k != t.k
  {
    var k1 := ScaledUnbounded(t, factor, width, height).k;
    assert k1 == t.k * factor;
    if factor > 1.0 {
      assert t.k * factor > t.k;
    } else {
      assert t.k * factor < t.k;
    }
  }

  /** The clamped zoom never leaves the scale extent; inside it, it scales by the factor. */
  lemma ScaledClampedInExtent(t: Transform, factor: real, width: real, height: real)
    requires t.k > 0.0 && factor > 0.0
    ensures MinScale <= ScaledClamped(t, factor, width, height).k <= MaxScale
    ensures MinScale <= t.k * factor <= MaxScale ==>
      ScaledClamped(t, factor, width, height) == ScaledUnbounded(t, factor, width, height)
  {
  }

  class MapView {
    /** The svg's width and height attributes, set from the container's size. */
    const width: real
    const height: real
    /** The three view entries of `localStorage` (and any others). */
    var storage: Storage
    /** The svg's `__zoom`: the transform d3 reports and the next gesture starts from. */
    var zoomState: Transform
    /** The container group's `transform` attribute: the view on screen. */
    var drawn: Transform
    /** The tooltip's opacity is 1. */
    var tooltipVisible: bool
    /** The route passed to `navigate`, once a node was clicked. */
    var location: Option<string>

    ghost predicate Valid()
      reads this
    {
      zoomState.k > 0.0 && drawn.k > 0.0 && ScalePositive(storage)
    }

    /** What the next gesture starts from is what is on screen. */
    predicate InSync()
      reads this
    {
      zoomState == drawn
    }

    /**
     * Mounting the map: attach the zoom behaviour (identity transform, tooltip hidden), then
     * `restoreView`.
     */
    constructor (width: real, height: real, storage: Storage)
      requires ScalePositive(storage)
      ensures Valid() && InSync()
      ensures this.width == width && this.height == height && this.storage == storage
      ensures drawn == Restored(storage, width, height)
      ensures !tooltipVisible && location == None
    {
      this.width := width;
      this.height := height;
      this.storage := storage;
      zoomState := Identity;
      drawn := Identity;
      tooltipVisible := false;
      location := None;
      new;
      RestoreView();
    }

    /**
     * A transform applied through the map's zoom behaviour: d3 stores it, the listener draws it
     * and hides the tooltip, and saves it only when a user event caused it.
     */
    method ZoomEvent(t: Transform, fromUser: bool)
      requires Valid() && t.k > 0.0
      modifies this
      ensures Valid() && InSync()
      ensures zoomState == t && drawn == t && !tooltipVisible
      ensures storage == (if fromUser then SaveViewState(old(storage), Some(t)) else old(storage))
      ensures location == old(location)
    {
      zoomState := t;
      drawn := t;
      tooltipVisible := false;
      if fromUser {
        SavedScalePositive(storage, t);
        storage := SaveViewState(storage, Some(t));
      }
    }

    /**
     * A wheel, drag or pinch gesture: d3 computes the new transform from the stored one. A wheel
     * or pinch clamps the scale to the extent; a drag keeps the stored scale, which the buttons
     * as written can have moved outside it.
     */
    method UserZoom(t: Transform)
      requires Valid() && t.k > 0.0
      modifies this
      ensures Valid() && InSync()
      ensures drawn == t && storage == Saved(old(storage), t) && Restored(storage, width, height) == t
      ensures !tooltipVisible && location == old(location)
    {
      ZoomEvent(t, true);
      SaveThenRestore(old(storage), t, width, height);
    }

    /** `resetView`: the default view, applied programmatically (nothing saved). */
    method ResetView()
      requires Valid()
      modifies this
      ensures Valid() && InSync()
      ensures drawn == DefaultView(width, height) && storage == old(storage)
      ensures !tooltipVisible && location == old(location)
    {
      ZoomEvent(DefaultView(width, height), false);
    }

    /** `restoreView`: the saved view when all three entries are present, else the default. */
    method RestoreView()
      requires Valid()
      modifies this
      ensures Valid() && InSync()
      ensures drawn == Restored(old(storage), width, height) && storage == old(storage)
      ensures !tooltipVisible && location == old(location)
    {
      var saved := StoredView(storage);
      if saved.Some? {
        ZoomEvent(saved.value, false);
      } else {
        ResetView();
      }
    }

    /** A click on a node: save the current transform, then navigate to the node's page. */
    method ClickNode(id: string)
      requires Valid()
      modifies this
      ensures Valid()
      ensures storage == SaveViewState(old(storage), Some(old(zoomState)))
      ensures location == Some(PagePath(id))
      ensures zoomState == old(zoomState) && drawn == old(drawn) && tooltipVisible == old(tooltipVisible)
    {
      SavedScalePositive(storage, zoomState);
      storage := SaveViewState(storage, Some(zoomState));
      location := Some(PagePath(id));
    }

    method ShowTooltip()
      modifies this
      ensures tooltipVisible
      ensures storage == old(storage) && zoomState == old(zoomState) && drawn == old(drawn)
      ensures location == old(location)
    {
      tooltipVisible := true;
    }

    method HideTooltip()
      modifies this
      ensures !tooltipVisible
      ensures storage == old(storage) && zoomState == old(zoomState) && drawn == old(drawn)
      ensures location == old(location)
    {
      tooltipVisible := false;
    }

    /**
     * A zoom button as written: `scaleBy` of a fresh `d3.zoom()` rewrites the svg's stored
     * transform (unbounded scale) without drawing it, and the timer then saves that stored
     * transform. From a view in sync, the view on screen no longer matches the stored transform
     * nor the saved one.
     */
    method ZoomButtonAsWritten(factor: real)
      requires Valid() && factor > 0.0 && factor != 1.0
      modifies this
      ensures Valid()
      ensures zoomState == ScaledUnbounded(old(zoomState), factor, width, height)
      ensures drawn == old(drawn) && tooltipVisible == old(tooltipVisible)
      ensures storage == Saved(old(storage), zoomState) && location == old(location)
      ensures old(InSync()) ==> !InSync() && Restored(storage, width, height) != drawn
    {
      ScaleChanges(zoomState, factor, width, height);
      zoomState := ScaledUnbounded(zoomState, factor, width, height);
      SavedScalePositive(storage, zoomState);
      storage := Saved(storage, zoomState);
      SaveThenRestore(old(storage), zoomState, width, height);
    }

    /** `handleZoomIn` as written. */
    method HandleZoomInAsWritten()
      requires Valid()
      modifies this
      ensures Valid()
      ensures zoomState == ScaledUnbounded(old(zoomState), ZoomInFactor, width, height)
      ensures zoomState.k == old(zoomState.k) * ZoomInFactor
      ensures drawn == old(drawn) && tooltipVisible == old(tooltipVisible)
      ensures storage == Saved(old(storage), zoomState) && location == old(location)
      ensures old(InSync()) ==> !InSync() && Restored(storage, width, height) != drawn
    {
      ZoomButtonAsWritten(ZoomInFactor);
    }

    /** `handleZoomOut` as written. */
    method HandleZoomOutAsWritten()
      requires Valid()
      modifies this
      ensures Valid()
      ensures zoomState == ScaledUnbounded(old(zoomState), ZoomOutFactor, width, height)
      ensures zoomState.k == old(zoomState.k) * ZoomOutFactor
      ensures drawn == old(drawn) && tooltipVisible == old(tooltipVisible)
      ensures storage == Saved(old(storage), zoomState) && location == old(location)
      ensures old(InSync()) ==> !InSync() && Restored(storage, width, height) != drawn
    {
      ZoomButtonAsWritten(ZoomOutFactor);
    }

    /**
     * `handleResetView` as written: the entries are cleared and a fresh `d3.zoom()` stores the
     * default transform without drawing it.
     */
    method HandleResetViewAsWritten()
      requires Valid()
      modifies this
      ensures Valid()
      ensures storage == Cleared(old(storage)) && zoomState == DefaultView(width, height)
      ensures drawn == old(drawn) && tooltipVisible == old(tooltipVisible) && location == old(location)
      ensures old(drawn) != DefaultView(width, height) ==> !InSync()
    {
      storage := Cleared(storage);
      zoomState := DefaultView(width, height);
    }

    /**
     * A zoom button applied through the map's own zoom behaviour: the clamped scaling is stored,
     * drawn and (by the timer) saved, and the view stays in sync.
     */
    method ZoomButton(factor: real)
      requires Valid() && factor > 0.0
      modifies this
      ensures Valid() && InSync()
      ensures drawn == ScaledClamped(old(zoomState), factor, width, height)
      ensures MinScale <= drawn.k <= MaxScale
      ensures storage == Saved(old(storage), drawn) && Restored(storage, width, height) == drawn
      ensures !tooltipVisible && location == old(location)
    {
      var t := ScaledClamped(zoomState, factor, width, height);
      ZoomEvent(t, false);
      SavedScalePositive(storage, zoomState);
      storage := Saved(storage, zoomState);
      SaveThenRestore(old(storage), t, width, height);
    }

    method HandleZoomIn()
      requires Valid()
      modifies this
      ensures Valid() && InSync()
      ensures drawn == ScaledClamped(old(zoomState), ZoomInFactor, width, height)
      ensures MinScale <= drawn.k <= MaxScale
      ensures storage == Saved(old(storage), drawn) && Restored(storage, width, height) == drawn
      ensures !tooltipVisible && location == old(location)
    {
      ZoomButton(ZoomInFactor);
    }

    method HandleZoomOut()
      requires Valid()
      modifies this
      ensures Valid() && InSync()
      ensures drawn == ScaledClamped(old(zoomState), ZoomOutFactor, width, height)
      ensures MinScale <= drawn.k <= MaxScale
      ensures storage == Saved(old(storage), drawn) && Restored(storage, width, height) == drawn
      ensures !tooltipVisible && location == old(location)
    {
      ZoomButton(ZoomOutFactor);
    }

    /**
     * `handleResetView` through the map's own zoom behaviour: the entries are cleared and the
     * default view is stored and drawn; restoring later gives the same default view.
     */
    method HandleResetView()
      requires Valid()
      modifies this
      ensures Valid() && InSync()
      ensures storage == Cleared(old(storage)) && drawn == DefaultView(width, height)
      ensures Restored(storage, width, height) == drawn
      ensures !tooltipVisible && location == old(location)
    {
      SavedScalePositive(storage, zoomState);
      storage := Cleared(storage);
      ZoomEvent(DefaultView(width, height), false);
      ClearThenRestore(old(storage), width, height);
    }
  }

  /**
   * A freshly mounted map of any size (800 x 600, say) with nothing saved, followed by a click
   * on the zoom-in button as written: the screen still shows the default view while the svg's
   * stored transform and the saved view are 1.3 times larger.
   */
  method ZoomInCounterexample(width: real, height: real) returns (shown: Transform, stored: Transform, saved: Transform)
    ensures shown == DefaultView(width, height)
    ensures stored.k == DefaultScale * ZoomInFactor && saved == stored && shown != stored
  {
    var view := new MapView(width, height, map[]);
    MissingEntryRestoresDefault(map[], width, height);
    view.HandleZoomInAsWritten();
    SaveThenRestore(map[], view.zoomState, width, height);
    shown := view.drawn;
    stored := view.zoomState;
    saved := Restored(view.storage, view.width, view.height);
  }

  /**
   * A map restored to a saved view and then reset with the button as written: the screen keeps
   * the old view while the svg's stored transform is the default one.
   */
  method ResetCounterexample() returns (shown: Transform, stored: Transform)
    ensures shown == Transform(10.0, 20.0, 2.0)
    ensures stored == DefaultView(800.0, 600.0) && shown != stored
  {
    var saved := map[KeyX := Some(10.0), KeyY := Some(20.0), KeyK := Some(2.0)];
    var view := new MapView(800.0, 600.0, saved);
    view.HandleResetViewAsWritten();
    shown := view.drawn;
    stored := view.zoomState;
  }
}
