/**
 * Polygon classification (SectorsJob): for every polygon of a visible sector,
 * drop it when the viewer is not strictly in front of its plane, and turn the
 * rest into work items: a triangle item for an opaque polygon, a portal item
 * for a polygon leading into another sector.
 */
module Classify {
  import opened Geometry
  import opened Tables
  import opened SectorSet

  /** The work items of one sector, in polygon order. */
  datatype Classified = Classified(triangles: seq<TrianglesMeta>, portals: seq<PortalMeta>)

  /** The contact search of the job: 0 when some entry of contains[b..] has
      the id, 1 otherwise. */
  function ContactFrom(contains: seq<SectorMeta>, id: int, b: nat): (contact: int)
    requires b <= |contains|
    decreases |contains| - b
  {
    if b == |contains| then 1
    else if contains[b].sectorId == id then 0
    else ContactFrom(contains, id, b + 1)
  }

  lemma {:induction false} ContactFromMeaning(contains: seq<SectorMeta>, id: int, b: nat)
    requires b <= |contains|
    ensures ContactFrom(contains, id, b) == 0 || ContactFrom(contains, id, b) == 1
    ensures ContactFrom(contains, id, b) == 0 <==> exists k :: b <= k < |contains| && contains[k].sectorId == id
    decreases |contains| - b
  {
    if b < |contains| && contains[b].sectorId != id {
      ContactFromMeaning(contains, id, b + 1);
      assert forall k :: b <= k < |contains| && contains[k].sectorId == id ==> b + 1 <= k;
    }
  }

  /** portalContact is 0 exactly when the sector behind the portal is already visited. */
  lemma ContactMeaning(contains: seq<SectorMeta>, id: int)
    ensures ContactFrom(contains, id, 0) == 0 || ContactFrom(contains, id, 0) == 1
    ensures ContactFrom(contains, id, 0) == 0 <==> ContainsId(contains, id)
  {
    ContactFromMeaning(contains, id, 0);
  }

  /** The triangle item of an opaque polygon: its triangle range, and the
      plane range and id of the sector being drawn. */
  function TriangleItem(sector: SectorMeta, p: PolygonMeta): TrianglesMeta
  {
    TrianglesMeta(p.triangleStartIndex, p.triangleCount, sector.planeStartIndex, sector.planeCount, sector.sectorId)
  }

  /** The portal item of a portal polygon: its edge range, its own ids, the
      plane range of the sector being drawn and the contact flag. */
  function PortalItem(level: Level, contains: seq<SectorMeta>, sector: SectorMeta, p: PolygonMeta): PortalMeta
    requires 0 <= p.connectedSectorId < |level.sectors|
  {
    PortalMeta(p.edgeStartIndex, p.edgeCount, p.connectedSectorId, p.sectorId,
               sector.planeStartIndex, sector.planeCount,
               ContactFrom(contains, level.sectors[p.connectedSectorId].sectorId, 0))
  }

  /** The viewer is strictly in front of polygon a's plane. */
  ghost predicate FrontFacing(level: Level, point: Vec3, a: int)
    requires WellFormed(level) && 0 <= a < |level.polygons|
  {
    SignedDistance(PolygonPlane(level, a), point) > 0.0
  }

  /** The items of the sector's polygons polygonStartIndex .. end-1. */
  function ClassifyRange(level: Level, contains: seq<SectorMeta>, point: Vec3, sector: SectorMeta, end: int): (r: Classified)
    requires WellFormed(level) && SectorRangeOk(level, sector)
    requires sector.polygonStartIndex <= end <= sector.polygonStartIndex + sector.polygonCount
    decreases end - sector.polygonStartIndex
  {
    if end == sector.polygonStartIndex then Classified([], [])
    else
      var r := ClassifyRange(level, contains, point, sector, end - 1);
      var a := end - 1;
      var polygon := level.polygons[a];
      if SignedDistance(PolygonPlane(level, a), point) <= 0.0 then r
      else if polygon.connectedSectorId == NoSector then
        Classified(r.triangles + [TriangleItem(sector, polygon)], r.portals)
      else
        Classified(r.triangles, r.portals + [PortalItem(level, contains, sector, polygon)])
  }

  /** SectorsJob.Execute for one sector: at most one item per polygon. */
  function ClassifySector(level: Level, contains: seq<SectorMeta>, point: Vec3, sector: SectorMeta): (r: Classified)
    requires WellFormed(level) && SectorRangeOk(level, sector)
    ensures |r.triangles| + |r.portals| <= sector.polygonCount
  {
    ClassifyCount(level, contains, point, sector, sector.polygonStartIndex + sector.polygonCount);
    ClassifyRange(level, contains, point, sector, sector.polygonStartIndex + sector.polygonCount)
  }

  /** Each polygon yields at most one item. */
  lemma {:induction false} ClassifyCount(level: Level, contains: seq<SectorMeta>, point: Vec3, sector: SectorMeta, end: int)
    requires WellFormed(level) && SectorRangeOk(level, sector)
    requires sector.polygonStartIndex <= end <= sector.polygonStartIndex + sector.polygonCount
    ensures var r := ClassifyRange(level, contains, point, sector, end);
            |r.triangles| + |r.portals| <= end - sector.polygonStartIndex
    decreases end - sector.polygonStartIndex
  {
    if end > sector.polygonStartIndex {
      ClassifyCount(level, contains, point, sector, end - 1);
    }
  }

  /** A triangle item comes from exactly an opaque polygon of the range that faces the viewer. */
  lemma {:induction false} TrianglesExact(level: Level, contains: seq<SectorMeta>, point: Vec3, sector: SectorMeta, end: int)
    requires WellFormed(level) && SectorRangeOk(level, sector)
    requires sector.polygonStartIndex <= end <= sector.polygonStartIndex + sector.polygonCount
    ensures forall t :: t in ClassifyRange(level, contains, point, sector, end).triangles <==>
              exists a :: sector.polygonStartIndex <= a < end && FrontFacing(level, point, a)
                          && level.polygons[a].connectedSectorId == NoSector
                          && t == TriangleItem(sector, level.polygons[a])
    decreases end - sector.polygonStartIndex
  {
    if end > sector.polygonStartIndex {
      TrianglesExact(level, contains, point, sector, end - 1);
    }
  }

  /** A portal item comes from exactly a portal polygon of the range that faces the viewer. */
  lemma {:induction false} PortalsExact(level: Level, contains: seq<SectorMeta>, point: Vec3, sector: SectorMeta, end: int)
    requires WellFormed(level) && SectorRangeOk(level, sector)
    requires sector.polygonStartIndex <= end <= sector.polygonStartIndex + sector.polygonCount
    ensures forall q :: q in ClassifyRange(level, contains, point, sector, end).portals <==>
              exists a :: sector.polygonStartIndex <= a < end && FrontFacing(level, point, a)
                          && level.polygons[a].connectedSectorId != NoSector
                          && q == PortalItem(level, contains, sector, level.polygons[a])
    decreases end - sector.polygonStartIndex
  {
    if end > sector.polygonStartIndex {
      PortalsExact(level, contains, point, sector, end - 1);
    }
  }

  /** What a portal item carries: the polygon's edge range and ids, the drawn
      sector's plane range, and contact 0 exactly when the sector behind it is
      already in the visited list. */
  lemma PortalItemFields(level: Level, contains: seq<SectorMeta>, point: Vec3, sector: SectorMeta, q: PortalMeta)
    requires WellFormed(level) && SectorRangeOk(level, sector)
    requires q in ClassifySector(level, contains, point, sector).portals
    ensures q.planeStartIndex == sector.planeStartIndex && q.planeCount == sector.planeCount
    ensures 0 <= q.connectedSectorId < |level.sectors|
    ensures q.portalContact == 0 || q.portalContact == 1
    ensures q.portalContact == 0 <==> ContainsId(contains, level.sectors[q.connectedSectorId].sectorId)
    ensures exists a :: InRange(sector, a) && level.polygons[a].connectedSectorId == q.connectedSectorId
                        && q.edgeStartIndex == level.polygons[a].edgeStartIndex
                        && q.edgeCount == level.polygons[a].edgeCount && EdgeRangeOk(level, level.polygons[a])
  {
    PortalsExact(level, contains, point, sector, sector.polygonStartIndex + sector.polygonCount);
    var a :| sector.polygonStartIndex <= a < sector.polygonStartIndex + sector.polygonCount && FrontFacing(level, point, a)
             && level.polygons[a].connectedSectorId != NoSector
             && q == PortalItem(level, contains, sector, level.polygons[a]);
    assert PolygonOk(level, level.polygons[a]);
    ContactMeaning(contains, level.sectors[q.connectedSectorId].sectorId);
  }

  /** A portal item's edge range is its polygon's, so it is a closed chain
      when every portal polygon's range is one (as the built tables are). */
  lemma PortalItemChained(level: Level, contains: seq<SectorMeta>, point: Vec3, sector: SectorMeta, q: PortalMeta)
    requires WellFormed(level) && SectorRangeOk(level, sector) && PortalLoopsChained(level)
    requires q in ClassifySector(level, contains, point, sector).portals
    ensures LoopChained(level.edges, q.edgeStartIndex, q.edgeCount)
  {
    PortalItemFields(level, contains, point, sector, q);
    var a :| InRange(sector, a) && level.polygons[a].connectedSectorId == q.connectedSectorId
             && q.edgeStartIndex == level.polygons[a].edgeStartIndex
             && q.edgeCount == level.polygons[a].edgeCount && EdgeRangeOk(level, level.polygons[a]);
  }

  /** What a triangle item carries: an in-range triangle index range and the
      drawn sector's plane range and id. */
  lemma TriangleItemFields(level: Level, contains: seq<SectorMeta>, point: Vec3, sector: SectorMeta, t: TrianglesMeta)
    requires WellFormed(level) && SectorRangeOk(level, sector)
    requires t in ClassifySector(level, contains, point, sector).triangles
    ensures t.planeStartIndex == sector.planeStartIndex && t.planeCount == sector.planeCount
    ensures t.sectorId == sector.sectorId
    ensures 0 <= t.triangleStartIndex && 0 <= t.triangleCount && t.triangleCount % 3 == 0
    ensures t.triangleStartIndex + t.triangleCount <= |level.triangles|
  {
    TrianglesExact(level, contains, point, sector, sector.polygonStartIndex + sector.polygonCount);
    var a :| sector.polygonStartIndex <= a < sector.polygonStartIndex + sector.polygonCount && FrontFacing(level, point, a)
             && level.polygons[a].connectedSectorId == NoSector
             && t == TriangleItem(sector, level.polygons[a]);
    assert PolygonOk(level, level.polygons[a]);
  }

  // ---------------------------------------------------------------------------
  // The whole job

  /** SectorsJob over items 0 .. n-1 of currentSectors. The job appends in
      parallel, so only membership of the concatenation is meaningful. */
  function ClassifyAll(level: Level, contains: seq<SectorMeta>, point: Vec3, currentSectors: seq<SectorMeta>, n: nat): (r: Classified)
    requires WellFormed(level) && AllRangesOk(level, currentSectors) && n <= |currentSectors|
  {
    if n == 0 then Classified([], [])
    else
      var r := ClassifyAll(level, contains, point, currentSectors, n - 1);
      var s := ClassifySector(level, contains, point, currentSectors[n - 1]);
      Classified(r.triangles + s.triangles, r.portals + s.portals)
  }

  /** The job emits a triangle item exactly when some item's sector emits it. */
  lemma {:induction false} ClassifyAllTriangles(level: Level, contains: seq<SectorMeta>, point: Vec3,
                                                 currentSectors: seq<SectorMeta>, n: nat)
    requires WellFormed(level) && AllRangesOk(level, currentSectors) && n <= |currentSectors|
    ensures forall t :: t in ClassifyAll(level, contains, point, currentSectors, n).triangles <==>
              exists i :: 0 <= i < n && t in ClassifySector(level, contains, point, currentSectors[i]).triangles
  {
    if n > 0 {
      ClassifyAllTriangles(level, contains, point, currentSectors, n - 1);
    }
  }

  /** The job emits a portal item exactly when some item's sector emits it. */
  lemma {:induction false} ClassifyAllPortals(level: Level, contains: seq<SectorMeta>, point: Vec3,
                                               currentSectors: seq<SectorMeta>, n: nat)
    requires WellFormed(level) && AllRangesOk(level, currentSectors) && n <= |currentSectors|
    ensures forall q :: q in ClassifyAll(level, contains, point, currentSectors, n).portals <==>
              exists i :: 0 <= i < n && q in ClassifySector(level, contains, point, currentSectors[i]).portals
  {
    if n > 0 {
      ClassifyAllPortals(level, contains, point, currentSectors, n - 1);
    }
  }
}
