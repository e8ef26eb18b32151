/** The viewport fitter of the map view (components/VietnamMap.tsx): the
    bounding boxes of the unit outlines, the choice of the box to show, and
    the scale and translation that centre that box in the display. */
module VietnamMap {
  import opened Types
  import Constants

  // ---------------------------------------------------------------------
  // Geometry
  // ---------------------------------------------------------------------

  datatype Point = Point(x: real, y: real)

  /** One unit's outline from the geometry data set. */
  datatype ProvinceGeo = ProvinceGeo(id: string, points: seq<Point>)

  datatype Bounds = Bounds(minX: real, minY: real, maxX: real, maxY: real, width: real, height: real)

  /** The points of the outlines in the order the scan visits them. */
  function AllPoints(geos: seq<ProvinceGeo>): (r: seq<Point>)
    ensures forall i, j :: 0 <= i < |geos| && 0 <= j < |geos[i].points| ==> geos[i].points[j] in r
  {
    if |geos| == 0 then []
    else
      var r := AllPoints(geos[..|geos| - 1]) + geos[|geos| - 1].points;
      assert forall i :: 0 <= i < |geos| - 1 ==> geos[..|geos| - 1][i] == geos[i];
      r
  }

  lemma {:induction false} AllPointsMember(geos: seq<ProvinceGeo>, p: Point)
    requires p in AllPoints(geos)
    ensures exists i :: 0 <= i < |geos| && p in geos[i].points
  {
    if |geos| > 0 {
      var front := geos[..|geos| - 1];
      if p in AllPoints(front) {
        AllPointsMember(front, p);
        var i :| 0 <= i < |front| && p in front[i].points;
        assert geos[i] == front[i];
      }
    }
  }

  // ---------------------------------------------------------------------
  // Bounds
  // ---------------------------------------------------------------------

  /** The running extremes of the scan; `NoPoint` is the initial
      (+Infinity, +Infinity, -Infinity, -Infinity) box. */
  datatype Extent = NoPoint | Extent(minX: real, minY: real, maxX: real, maxY: real)

  /** One step of the scan: each extreme moves only when the point passes it. */
  function Visit(e: Extent, p: Point): Extent {
    match e
    case NoPoint => Extent(p.x, p.y, p.x, p.y)
    case Extent(x0, y0, x1, y1) =>
      Extent(if p.x < x0 then p.x else x0, if p.y < y0 then p.y else y0,
             if p.x > x1 then p.x else x1, if p.y > y1 then p.y else y1)
  }

  /** The extremes after visiting every point of `pts` in order. */
  function Scan(pts: seq<Point>): Extent {
    if |pts| == 0 then NoPoint else Visit(Scan(pts[..|pts| - 1]), pts[|pts| - 1])
  }

  /** Every point lies inside the extent. */
  ghost predicate Encloses(pts: seq<Point>, e: Extent)
    requires e.Extent?
  {
    forall i :: 0 <= i < |pts| ==> e.minX <= pts[i].x <= e.maxX && e.minY <= pts[i].y <= e.maxY
  }

  /** Each of the four extremes is a coordinate of some point. */
  ghost predicate Attains(pts: seq<Point>, e: Extent)
    requires e.Extent?
  {
    && (exists i :: 0 <= i < |pts| && pts[i].x == e.minX)
    && (exists i :: 0 <= i < |pts| && pts[i].y == e.minY)
    && (exists i :: 0 <= i < |pts| && pts[i].x == e.maxX)
    && (exists i :: 0 <= i < |pts| && pts[i].y == e.maxY)
  }

  /** The scan finds the tightest box around the points: it holds all of
      them and each side touches one. */
  lemma {:induction false} ScanIsTight(pts: seq<Point>)
    ensures Scan(pts).NoPoint? <==> |pts| == 0
    ensures Scan(pts).Extent? ==> Encloses(pts, Scan(pts)) && Attains(pts, Scan(pts))
  {
    if |pts| > 0 {
      var front, p := pts[..|pts| - 1], pts[|pts| - 1];
      ScanIsTight(front);
      var e := Scan(pts);
      assert forall i :: 0 <= i < |front| ==> pts[i] == front[i];
      if |front| > 0 {
        var e0 := Scan(front);
        var a :| 0 <= a < |front| && front[a].x == e0.minX;
        var b :| 0 <= b < |front| && front[b].y == e0.minY;
        var c :| 0 <= c < |front| && front[c].x == e0.maxX;
        var d :| 0 <= d < |front| && front[d].y == e0.maxY;
        var last := |pts| - 1;
        assert pts[if p.x < e0.minX then last else a].x == e.minX;
        assert pts[if p.y < e0.minY then last else b].y == e.minY;
        assert pts[if p.x > e0.maxX then last else c].x == e.maxX;
        assert pts[if p.y > e0.maxY then last else d].y == e.maxY;
      } else {
        assert pts[0] == p;
      }
    }
  }

  /** Width and height are the spans of the box. */
  predicate WellFormed(b: Bounds) {
    b.width == b.maxX - b.minX && b.height == b.maxY - b.minY
  }

  function ToExtent(b: Bounds): Extent {
    Extent(b.minX, b.minY, b.maxX, b.maxY)
  }

  /** The tight, well-formed bounding box of a non-empty point list. */
  ghost predicate IsBoundingBox(pts: seq<Point>, b: Bounds) {
    WellFormed(b) && Encloses(pts, ToExtent(b)) && Attains(pts, ToExtent(b))
  }

  /** The box with the extent's sides and their spans as width and height. */
  function BoundsOf(e: Extent): (b: Bounds)
    requires e.Extent?
    ensures WellFormed(b) && ToExtent(b) == e
  {
    Bounds(e.minX, e.minY, e.maxX, e.maxY, e.maxX - e.minX, e.maxY - e.minY)
  }

  /** A non-empty scan gives a tight box with non-negative sides. */
  lemma ScanBounds(pts: seq<Point>)
    ensures Scan(pts).NoPoint? <==> |pts| == 0
    ensures Scan(pts).Extent? ==> IsBoundingBox(pts, BoundsOf(Scan(pts)))
    ensures Scan(pts).Extent? ==> BoundsOf(Scan(pts)).width >= 0.0 && BoundsOf(Scan(pts)).height >= 0.0
  {
    ScanIsTight(pts);
    if |pts| > 0 {
      var e := Scan(pts);
      assert e.minX <= pts[0].x <= e.maxX && e.minY <= pts[0].y <= e.maxY;
    }
  }

  /** The box of all points of `geos`; `None` when there is no point at all,
      where the scan would be left at its infinite initial box. */
  function CalculateBounds(geos: seq<ProvinceGeo>): (r: Option<Bounds>)
    ensures r.None? <==> |AllPoints(geos)| == 0
    ensures r.Some? ==> IsBoundingBox(AllPoints(geos), r.value)
    ensures r.Some? ==> r.value.width >= 0.0 && r.value.height >= 0.0
  {
    var pts := AllPoints(geos);
    ScanBounds(pts);
    var e := Scan(pts);
    if e.NoPoint? then None else Some(BoundsOf(e))
  }

  /** A unit whose points all coincide has a box of width and height 0. */
  lemma SinglePointBounds(geos: seq<ProvinceGeo>, p: Point)
    requires |AllPoints(geos)| > 0
    requires forall i :: 0 <= i < |AllPoints(geos)| ==> AllPoints(geos)[i] == p
    ensures CalculateBounds(geos).Some?
    ensures CalculateBounds(geos).value.width == 0.0 && CalculateBounds(geos).value.height == 0.0
  {
    var b := CalculateBounds(geos).value;
    var pts := AllPoints(geos);
    var a :| 0 <= a < |pts| && pts[a].x == b.minX;
    var c :| 0 <= c < |pts| && pts[c].x == b.maxX;
    var d :| 0 <= d < |pts| && pts[d].y == b.minY;
    var e :| 0 <= e < |pts| && pts[e].y == b.maxY;
  }

  /** `inner` lies inside `outer`. */
  predicate Within(inner: Bounds, outer: Bounds) {
    outer.minX <= inner.minX && inner.maxX <= outer.maxX &&
    outer.minY <= inner.minY && inner.maxY <= outer.maxY
  }

  /** A box over fewer points lies inside the box over more. */
  lemma BoundsMonotone(small: seq<ProvinceGeo>, large: seq<ProvinceGeo>)
    requires |AllPoints(small)| > 0
    requires forall p :: p in AllPoints(small) ==> p in AllPoints(large)
    ensures CalculateBounds(large).Some?
    ensures Within(CalculateBounds(small).value, CalculateBounds(large).value)
  {
    var s, l := AllPoints(small), AllPoints(large);
    assert s[0] in l;
    var bs, bl := CalculateBounds(small).value, CalculateBounds(large).value;
    var a :| 0 <= a < |s| && s[a].x == bs.minX;
    var b :| 0 <= b < |s| && s[b].y == bs.minY;
    var c :| 0 <= c < |s| && s[c].x == bs.maxX;
    var d :| 0 <= d < |s| && s[d].y == bs.maxY;
    forall q | q in s ensures bl.minX <= q.x <= bl.maxX && bl.minY <= q.y <= bl.maxY {
      assert q in l;
      var k :| 0 <= k < |l| && l[k] == q;
    }
    assert s[a] in s && s[b] in s && s[c] in s && s[d] in s;
  }

  // ---------------------------------------------------------------------
  // Precomputed boxes: whole map, each region, each unit
  // ---------------------------------------------------------------------

  /** The outlines whose id the region group lists. */
  function InRegion(geos: seq<ProvinceGeo>, ids: seq<string>): (r: seq<ProvinceGeo>)
    ensures forall g :: g in r <==> g in geos && g.id in ids
  {
    if |geos| == 0 then []
    else
      var front := geos[..|geos| - 1];
      var g := geos[|geos| - 1];
      assert geos == front + [g];
      InRegion(front, ids) + (if g.id in ids then [g] else [])
  }

  /** REGION_BOUNDS: the box of each region group other than `All` with at
      least one point. */
  function RegionBounds(geos: seq<ProvinceGeo>): (r: map<Region, Bounds>)
    ensures forall reg :: reg in r ==> reg in Constants.Regions && reg != All
    ensures forall reg :: reg in r ==> Some(r[reg]) == CalculateBounds(InRegion(geos, Constants.Regions[reg]))
    ensures forall reg :: reg in Constants.Regions && reg != All && CalculateBounds(InRegion(geos, Constants.Regions[reg])).Some? ==> reg in r
  {
    map reg | reg in Constants.Regions && reg != All && CalculateBounds(InRegion(geos, Constants.Regions[reg])).Some?
      :: CalculateBounds(InRegion(geos, Constants.Regions[reg])).value
  }

  /** PROVINCE_BOUNDS: each unit's own box, a later outline with the same id
      replacing an earlier one. */
  function ProvinceBounds(geos: seq<ProvinceGeo>): map<string, Bounds> {
    if |geos| == 0 then map[]
    else
      var acc := ProvinceBounds(geos[..|geos| - 1]);
      var g := geos[|geos| - 1];
      match CalculateBounds([g])
      case Some(b) => acc[g.id := b]
      case None => acc - {g.id}
  }

  /** Every entry of PROVINCE_BOUNDS is the box of an outline with that id. */
  lemma {:induction false} ProvinceBoundsOrigin(geos: seq<ProvinceGeo>, id: string)
    requires id in ProvinceBounds(geos)
    ensures exists k :: 0 <= k < |geos| && geos[k].id == id && CalculateBounds([geos[k]]) == Some(ProvinceBounds(geos)[id])
  {
    var front, g := geos[..|geos| - 1], geos[|geos| - 1];
    if g.id != id {
      ProvinceBoundsOrigin(front, id);
      var k :| 0 <= k < |front| && front[k].id == id && CalculateBounds([front[k]]) == Some(ProvinceBounds(front)[id]);
      assert geos[k] == front[k];
    }
  }

  /** The last outline with a given id sets that id's entry, when it has a
      point. */
  lemma {:induction false} ProvinceBoundsLastWins(geos: seq<ProvinceGeo>, k: int)
    requires 0 <= k < |geos| && |geos[k].points| > 0
    requires forall j :: k < j < |geos| ==> geos[j].id != geos[k].id
    ensures geos[k].id in ProvinceBounds(geos)
    ensures Some(ProvinceBounds(geos)[geos[k].id]) == CalculateBounds([geos[k]])
  {
    var front, g := geos[..|geos| - 1], geos[|geos| - 1];
    if k == |geos| - 1 {
      SingleGeoPoints(g);
      assert CalculateBounds([g]).Some?;
    } else {
      assert front[k] == geos[k];
      ProvinceBoundsLastWins(front, k);
      assert g.id != geos[k].id;
      assert ProvinceBounds(geos)[geos[k].id] == ProvinceBounds(front)[geos[k].id];
    }
  }

  lemma SingleGeoPoints(g: ProvinceGeo)
    ensures AllPoints([g]) == g.points
  {
    assert [g][..0] == [];
  }

  /** A unit's box lies inside the box of any id group that lists it. */
  lemma ProvinceInsideGroup(geos: seq<ProvinceGeo>, id: string, ids: seq<string>)
    requires id in ids && id in ProvinceBounds(geos)
    ensures CalculateBounds(InRegion(geos, ids)).Some?
    ensures Within(ProvinceBounds(geos)[id], CalculateBounds(InRegion(geos, ids)).value)
  {
    ProvinceBoundsOrigin(geos, id);
    var k :| 0 <= k < |geos| && geos[k].id == id && CalculateBounds([geos[k]]) == Some(ProvinceBounds(geos)[id]);
    var group := InRegion(geos, ids);
    assert geos[k] in group;
    OutlineInGroup(geos[k], group);
    BoundsMonotone([geos[k]], group);
  }

  /** The points of one outline of a list are among the points of the list. */
  lemma OutlineInGroup(g: ProvinceGeo, group: seq<ProvinceGeo>)
    requires g in group
    ensures forall p :: p in AllPoints([g]) ==> p in AllPoints(group)
  {
    SingleGeoPoints(g);
    var j :| 0 <= j < |group| && group[j] == g;
    forall p | p in g.points ensures p in AllPoints(group) {
      var i :| 0 <= i < |g.points| && g.points[i] == p;
      assert group[j].points[i] == p;
    }
  }

  /** A unit's box lies inside the box of the region that lists it. */
  lemma ProvinceInsideRegion(geos: seq<ProvinceGeo>, id: string, reg: Region)
    requires reg in Constants.Regions && id in Constants.Regions[reg]
    requires id in ProvinceBounds(geos)
    ensures reg in RegionBounds(geos)
    ensures Within(ProvinceBounds(geos)[id], RegionBounds(geos)[reg])
  {
    ProvinceInsideGroup(geos, id, Constants.Regions[reg]);
  }

  /** The box of a group of outlines lies inside the box of all of them. */
  lemma GroupInsideAll(geos: seq<ProvinceGeo>, ids: seq<string>)
    requires CalculateBounds(InRegion(geos, ids)).Some?
    ensures CalculateBounds(geos).Some?
    ensures Within(CalculateBounds(InRegion(geos, ids)).value, CalculateBounds(geos).value)
  {
    var group := InRegion(geos, ids);
    forall p | p in AllPoints(group) ensures p in AllPoints(geos) {
      AllPointsMember(group, p);
      var i :| 0 <= i < |group| && p in group[i].points;
      var k :| 0 <= k < |geos| && geos[k] == group[i];
      var j :| 0 <= j < |geos[k].points| && geos[k].points[j] == p;
    }
    BoundsMonotone(group, geos);
  }

  /** A region's box lies inside the whole map's box. */
  lemma RegionInsideMap(geos: seq<ProvinceGeo>, reg: Region)
    requires reg in RegionBounds(geos)
    ensures CalculateBounds(geos).Some?
    ensures Within(RegionBounds(geos)[reg], CalculateBounds(geos).value)
  {
    GroupInsideAll(geos, Constants.Regions[reg]);
  }

  /** A unit's box lies inside the whole-map box, whether or not a region
      lists it. */
  lemma ProvinceInsideMap(geos: seq<ProvinceGeo>, id: string)
    requires id in ProvinceBounds(geos)
    ensures CalculateBounds(geos).Some?
    ensures Within(ProvinceBounds(geos)[id], CalculateBounds(geos).value)
  {
    ProvinceBoundsOrigin(geos, id);
    var k :| 0 <= k < |geos| && geos[k].id == id && CalculateBounds([geos[k]]) == Some(ProvinceBounds(geos)[id]);
    assert geos[k] in geos;
    OutlineInGroup(geos[k], geos);
    BoundsMonotone([geos[k]], geos);
  }

  // ---------------------------------------------------------------------
  // Fitting the view
  // ---------------------------------------------------------------------

  /** `translate(x, y) scale(scale)` of the map group. */
  datatype Transform = Transform(x: real, y: real, scale: real)

  const InitialTransform: Transform := Transform(0.0, 0.0, 1.0)

  /** Where the transform sends a map point on the display. */
  function Apply(t: Transform, p: Point): Point {
    Point(p.x * t.scale + t.x, p.y * t.scale + t.y)
  }

  function RMax(a: real, b: real): real { if a < b then b else a }
  function RMin(a: real, b: real): real { if a < b then a else b }

  /** A selected id counts only when it is a non-empty string, as in
      `selectedProvinceId && ...`. */
  predicate IsSelected(selected: Option<string>) {
    selected.Some? && selected.value != ""
  }

  /** The precomputed boxes the view reads. */
  datatype BoundsTables = BoundsTables(
    mapBounds: Bounds,
    regionBounds: map<Region, Bounds>,
    provinceBounds: map<string, Bounds>)

  /** MAP_BOUNDS, REGION_BOUNDS and PROVINCE_BOUNDS, all computed from the
      same outlines. */
  function Tables(geos: seq<ProvinceGeo>): BoundsTables
    requires |AllPoints(geos)| > 0
  {
    BoundsTables(CalculateBounds(geos).value, RegionBounds(geos), ProvinceBounds(geos))
  }

  /** A box whose width and height are its non-negative spans. */
  predicate Drawable(b: Bounds) {
    WellFormed(b) && b.width >= 0.0 && b.height >= 0.0
  }

  /** Every box in the tables built from the outlines is drawable. */
  lemma TablesDrawable(geos: seq<ProvinceGeo>)
    requires |AllPoints(geos)| > 0
    ensures Drawable(Tables(geos).mapBounds)
    ensures forall reg :: reg in Tables(geos).regionBounds ==> Drawable(Tables(geos).regionBounds[reg])
    ensures forall id :: id in Tables(geos).provinceBounds ==> Drawable(Tables(geos).provinceBounds[id])
  {
    RegionBoxesDrawable(geos);
    UnitBoxesDrawable(geos);
  }

  lemma RegionBoxesDrawable(geos: seq<ProvinceGeo>)
    ensures forall reg :: reg in RegionBounds(geos) ==> Drawable(RegionBounds(geos)[reg])
  {
    var regions := RegionBounds(geos);
    forall reg | reg in regions ensures Drawable(regions[reg]) {
      var b := CalculateBounds(InRegion(geos, Constants.Regions[reg]));
      assert b == Some(regions[reg]);
    }
  }

  lemma UnitBoxesDrawable(geos: seq<ProvinceGeo>)
    ensures forall id :: id in ProvinceBounds(geos) ==> Drawable(ProvinceBounds(geos)[id])
  {
    var provinces := ProvinceBounds(geos);
    forall id | id in provinces ensures Drawable(provinces[id]) {
      ProvinceBoundsOrigin(geos, id);
    }
  }

  /** A unit is selected and has an entry in the unit table. */
  predicate HasUnitBox(selected: Option<string>, tables: BoundsTables) {
    IsSelected(selected) && selected.value in tables.provinceBounds
  }

  /** A region other than `All` is active and has an entry in the region table. */
  predicate HasRegionBox(activeRegion: Region, tables: BoundsTables) {
    activeRegion != All && activeRegion in tables.regionBounds
  }

  /** A box with no width or no height. */
  predicate Degenerate(b: Bounds) {
    b.width == 0.0 || b.height == 0.0
  }

  /** The selected unit's box, else the active region's, else the whole
      map; a box with zero width or height falls back to the whole map. */
  function SelectTarget(selected: Option<string>, activeRegion: Region, tables: BoundsTables): (b: Bounds)
    ensures b == tables.mapBounds || (b.width != 0.0 && b.height != 0.0)
    ensures b == tables.mapBounds
         || (HasUnitBox(selected, tables) && b == tables.provinceBounds[selected.value])
         || (HasRegionBox(activeRegion, tables) && b == tables.regionBounds[activeRegion])
    // a selected unit with a box of non-zero sides wins
    ensures HasUnitBox(selected, tables) && !Degenerate(tables.provinceBounds[selected.value]) ==>
      b == tables.provinceBounds[selected.value]
    // without a unit entry, the active region's box of non-zero sides comes next
    ensures !HasUnitBox(selected, tables) && HasRegionBox(activeRegion, tables) && !Degenerate(tables.regionBounds[activeRegion]) ==>
      b == tables.regionBounds[activeRegion]
    // a degenerate candidate, or no candidate at all, gives the whole map
    ensures HasUnitBox(selected, tables) && Degenerate(tables.provinceBounds[selected.value]) ==> b == tables.mapBounds
    ensures !HasUnitBox(selected, tables) && HasRegionBox(activeRegion, tables) && Degenerate(tables.regionBounds[activeRegion]) ==>
      b == tables.mapBounds
    ensures !HasUnitBox(selected, tables) && !HasRegionBox(activeRegion, tables) ==> b == tables.mapBounds
  {
    var target :=
      if HasUnitBox(selected, tables) then tables.provinceBounds[selected.value]
      else if HasRegionBox(activeRegion, tables) then tables.regionBounds[activeRegion]
      else tables.mapBounds;
    if Degenerate(target) then tables.mapBounds else target
  }

  /** 0.4 when a unit is selected (even if its box was replaced), else 0.9. */
  function Padding(selected: Option<string>): real {
    if IsSelected(selected) then 0.4 else 0.9
  }

  /** The smaller of the two axis scales that make the box fill the display,
      each side at least 5 map units, discounted by the padding. */
  function FitScale(b: Bounds, width: real, height: real, padding: real): real {
    RMin(width / RMax(b.width, 5.0), height / RMax(b.height, 5.0)) * padding
  }

  /** The transform at `scale` that puts the centre of `b` at the centre of
      a `width` x `height` display. */
  function Centred(b: Bounds, width: real, height: real, scale: real): Transform {
    Transform(width / 2.0 - (b.minX + b.width / 2.0) * scale,
              height / 2.0 - (b.minY + b.height / 2.0) * scale,
              scale)
  }

  /** The transform that centres box `b` on a `width` x `height` display at
      the fitted scale. */
  function Fit(b: Bounds, width: real, height: real, padding: real): (t: Transform)
    ensures Apply(t, Centre(b)) == Point(width / 2.0, height / 2.0)
  {
    Centred(b, width, height, FitScale(b, width, height, padding))
  }

  /** The transform after the view's size or selection changed; a display
      with no width or height keeps the current transform. */
  function FitView(current: Transform, width: real, height: real, selected: Option<string>,
                   activeRegion: Region, tables: BoundsTables): (t: Transform)
    ensures width == 0.0 || height == 0.0 ==> t == current
    ensures width != 0.0 && height != 0.0 ==>
      t == Fit(SelectTarget(selected, activeRegion, tables), width, height, Padding(selected))
  {
    if width == 0.0 || height == 0.0 then current
    else Fit(SelectTarget(selected, activeRegion, tables), width, height, Padding(selected))
  }

  function Centre(b: Bounds): Point {
    Point(b.minX + b.width / 2.0, b.minY + b.height / 2.0)
  }

  /** The fitted transform sends the centre of the target box to the
      centre of the display. */
  lemma FitViewCentres(current: Transform, width: real, height: real, selected: Option<string>,
                       activeRegion: Region, tables: BoundsTables)
    requires width != 0.0 && height != 0.0
    ensures Apply(FitView(current, width, height, selected, activeRegion, tables),
                  Centre(SelectTarget(selected, activeRegion, tables))) == Point(width / 2.0, height / 2.0)
  {
  }

  lemma MulMonotone(a: real, b: real, c: real)
    requires a <= b && 0.0 <= c
    ensures a * c <= b * c
  {
    assert (b - a) * c >= 0.0;
  }

  lemma ScaleBound(extent: real, size: real, other: real, padding: real)
    requires size > 0.0 && other > 0.0 && 0.0 < padding
    requires 0.0 <= extent
    ensures 0.0 < RMin(size / RMax(extent, 5.0), other) * padding
    ensures extent * (RMin(size / RMax(extent, 5.0), other) * padding) <= padding * size
  {
    var e := RMax(extent, 5.0);
    var q := size / e;
    assert q * e == size;
    assert q > 0.0;
    var m := RMin(q, other);
    assert 0.0 < m <= q;
    MulMonotone(extent, e, m);
    MulMonotone(m, q, e);
    assert extent * m <= size;
    MulMonotone(extent * m, size, padding);
    assert extent * (m * padding) == (extent * m) * padding;
  }

  /** For a display of positive size and a box with non-negative sides, the
      scale is positive and the box, scaled, takes at most the padding
      share of each display side. */
  lemma FitScaleFits(b: Bounds, width: real, height: real, padding: real)
    requires width > 0.0 && height > 0.0 && 0.0 < padding
    requires b.width >= 0.0 && b.height >= 0.0
    ensures FitScale(b, width, height, padding) > 0.0
    ensures b.width * FitScale(b, width, height, padding) <= padding * width
    ensures b.height * FitScale(b, width, height, padding) <= padding * height
  {
    var sx, sy := width / RMax(b.width, 5.0), height / RMax(b.height, 5.0);
    assert sy > 0.0 && sx > 0.0;
    ScaleBound(b.width, width, sy, padding);
    assert RMin(sx, sy) == RMin(sy, sx);
    ScaleBound(b.height, height, sx, padding);
  }

  /** The scale is the largest that fits: on one axis the padded display
      side is filled exactly by the side (floored at 5 map units). */
  lemma FitScaleIsLargest(b: Bounds, width: real, height: real, padding: real)
    ensures var s := FitScale(b, width, height, padding);
      RMax(b.width, 5.0) * s == padding * width || RMax(b.height, 5.0) * s == padding * height
  {
    var ex, ey := RMax(b.width, 5.0), RMax(b.height, 5.0);
    assert ex * (width / ex) == width;
    assert ey * (height / ey) == height;
    var m := RMin(width / ex, height / ey);
    assert ex * (m * padding) == (ex * m) * padding;
    assert ey * (m * padding) == (ey * m) * padding;
  }

  /** One axis of the fit: a side scaled to at most the display side and
      centred stays between 0 and the display side. */
  lemma AxisInside(lo: real, hi: real, side: real, scale: real, size: real)
    requires side == hi - lo
    requires 0.0 <= side && 0.0 < scale && 0.0 < size
    requires side * scale <= size
    ensures var shift := size / 2.0 - (lo + side / 2.0) * scale;
      0.0 <= lo * scale + shift <= hi * scale + shift <= size
  {
    assert side * scale >= 0.0;
    assert (lo + side / 2.0) * scale == lo * scale + (side * scale) / 2.0;
    assert hi * scale == lo * scale + side * scale;
  }

  /** A well-formed box whose scaled sides fit the display lands entirely
      inside the display when centred. */
  lemma CentredShowsBox(b: Bounds, width: real, height: real, scale: real)
    requires width > 0.0 && height > 0.0 && scale > 0.0
    requires Drawable(b)
    requires b.width * scale <= width && b.height * scale <= height
    ensures var t := Centred(b, width, height, scale);
      var lo, hi := Apply(t, Point(b.minX, b.minY)), Apply(t, Point(b.maxX, b.maxY));
      0.0 <= lo.x <= hi.x <= width && 0.0 <= lo.y <= hi.y <= height
  {
    AxisInside(b.minX, b.maxX, b.width, scale, width);
    AxisInside(b.minY, b.maxY, b.height, scale, height);
  }

  /** A length within a padding share (at most 1) of a side is within the side. */
  lemma WithinPadding(length: real, padding: real, size: real)
    requires 0.0 < size && padding <= 1.0 && length <= padding * size
    ensures length <= size
  {
    MulMonotone(padding, 1.0, size);
  }

  /** With a padding of at most 1 the scaled sides fit the display itself. */
  lemma FitScaleWithin(b: Bounds, width: real, height: real, padding: real)
    requires width > 0.0 && height > 0.0 && 0.0 < padding <= 1.0
    requires b.width >= 0.0 && b.height >= 0.0
    ensures var s := FitScale(b, width, height, padding);
      s > 0.0 && b.width * s <= width && b.height * s <= height
  {
    var s := FitScale(b, width, height, padding);
    FitScaleFits(b, width, height, padding);
    WithinPadding(b.width * s, padding, width);
    WithinPadding(b.height * s, padding, height);
  }

  /** On a display of positive size, a well-formed box lands entirely
      inside the display under its fitted transform. */
  lemma FitShowsBox(b: Bounds, width: real, height: real, padding: real)
    requires width > 0.0 && height > 0.0 && 0.0 < padding <= 1.0
    requires Drawable(b)
    ensures var t := Fit(b, width, height, padding);
      var lo, hi := Apply(t, Point(b.minX, b.minY)), Apply(t, Point(b.maxX, b.maxY));
      0.0 <= lo.x <= hi.x <= width && 0.0 <= lo.y <= hi.y <= height
  {
    FitScaleWithin(b, width, height, padding);
    CentredShowsBox(b, width, height, FitScale(b, width, height, padding));
  }

  /** Whatever is selected, the whole target box taken from the tables
      built from the outlines lands inside a display of positive size. */
  lemma FitViewShowsTarget(current: Transform, width: real, height: real, selected: Option<string>,
                           activeRegion: Region, geos: seq<ProvinceGeo>)
    requires width > 0.0 && height > 0.0 && |AllPoints(geos)| > 0
    ensures var b := SelectTarget(selected, activeRegion, Tables(geos));
      var t := FitView(current, width, height, selected, activeRegion, Tables(geos));
      var lo, hi := Apply(t, Point(b.minX, b.minY)), Apply(t, Point(b.maxX, b.maxY));
      0.0 <= lo.x <= hi.x <= width && 0.0 <= lo.y <= hi.y <= height
  {
    TablesDrawable(geos);
    FitShowsBox(SelectTarget(selected, activeRegion, Tables(geos)), width, height, Padding(selected));
  }

  /** The whole map 0..100 x 0..50 on an 800 x 600 display with nothing
      selected: scale 7.2, translation (40, 120). */
  lemma WholeMapExample()
    ensures var mapBox := Bounds(0.0, 0.0, 100.0, 50.0, 100.0, 50.0);
      FitView(InitialTransform, 800.0, 600.0, None, All, BoundsTables(mapBox, map[], map[]))
        == Transform(40.0, 120.0, 7.2)
  {
  }

  /** A selected unit whose box has no width is shown against the whole
      map, still with the closer 0.4 padding. */
  lemma DegenerateSelectionFallsBack(width: real, height: real, id: string, tables: BoundsTables)
    requires width != 0.0 && height != 0.0 && id != ""
    requires id in tables.provinceBounds && tables.provinceBounds[id].width == 0.0
    ensures SelectTarget(Some(id), North, tables) == tables.mapBounds
    ensures FitView(InitialTransform, width, height, Some(id), North, tables).scale
         == FitScale(tables.mapBounds, width, height, 0.4)
  {
  }
}
