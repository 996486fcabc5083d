/**
 * The sector-set resolver: a two-list breadth-first expansion over the sector
 * graph from the viewer's sector (LevelLoader.GetSectors), with the linear
 * scans it uses (CheckRadius, CheckSector, SectorsContains, SectorsDoNotEqual).
 */
module SectorSet {
  import opened Geometry
  import opened Tables

  /** A neighbour is admitted when no plane of its polygons puts the viewer further behind than this. */
  const RadiusTolerance: real := 0.6

  /** GetSectors runs at most this many frontier levels. */
  const MaxLevels: nat := 4096

  // ---------------------------------------------------------------------------
  // Specifications of the scans

  predicate ContainsId(list: seq<SectorMeta>, id: int)
  {
    exists i :: 0 <= i < |list| && list[i].sectorId == id
  }

  /** Same length and the same sector id at every index. */
  predicate SameIds(a: seq<SectorMeta>, b: seq<SectorMeta>)
  {
    |a| == |b| && forall i :: 0 <= i < |a| ==> a[i].sectorId == b[i].sectorId
  }

  predicate InRange(s: SectorMeta, d: int)
  {
    s.polygonStartIndex <= d < s.polygonStartIndex + s.polygonCount
  }

  /** Every plane of the sector's polygons gives the point a signed distance of at least -0.6. */
  ghost predicate WithinRadius(level: Level, s: SectorMeta, p: Vec3)
    requires WellFormed(level) && SectorRangeOk(level, s)
  {
    forall d :: InRange(s, d) ==> SignedDistance(PolygonPlane(level, d), p) >= -RadiusTolerance
  }

  /** Every plane of the sector's polygons has the point in front of it. */
  ghost predicate InsideSector(level: Level, s: SectorMeta, p: Vec3)
    requires WellFormed(level) && SectorRangeOk(level, s)
  {
    forall d :: InRange(s, d) ==> SignedDistance(PolygonPlane(level, d), p) >= 0.0
  }

  lemma InsideImpliesWithinRadius(level: Level, s: SectorMeta, p: Vec3)
    requires WellFormed(level) && SectorRangeOk(level, s)
    ensures InsideSector(level, s, p) ==> WithinRadius(level, s, p)
  {
  }

  // ---------------------------------------------------------------------------
  // The scans themselves

  method SectorsContains(contains: seq<SectorMeta>, sectorId: int) returns (found: bool)
    ensures found <==> ContainsId(contains, sectorId)
  {
    var i := 0;
    while i < |contains|
      invariant 0 <= i <= |contains|
      invariant forall k :: 0 <= k < i ==> contains[k].sectorId != sectorId
    {
      if contains[i].sectorId == sectorId {
        return true;
      }
      i := i + 1;
    }
    return false;
  }

  method SectorsDoNotEqual(contains: seq<SectorMeta>, oldContains: seq<SectorMeta>) returns (differ: bool)
    ensures differ <==> !SameIds(contains, oldContains)
  {
    if |contains| != |oldContains| {
      return true;
    }
    var i := 0;
    while i < |contains|
      invariant 0 <= i <= |contains|
      invariant forall k :: 0 <= k < i ==> contains[k].sectorId == oldContains[k].sectorId
    {
      if contains[i].sectorId != oldContains[i].sectorId {
        return true;
      }
      i := i + 1;
    }
    return false;
  }

  method CheckRadius(level: Level, s: SectorMeta, camPoint: Vec3) returns (ok: bool)
    requires WellFormed(level) && SectorRangeOk(level, s)
    ensures ok <==> WithinRadius(level, s, camPoint)
  {
    var i := s.polygonStartIndex;
    while i < s.polygonStartIndex + s.polygonCount
      invariant s.polygonStartIndex <= i <= s.polygonStartIndex + s.polygonCount
      invariant forall d :: s.polygonStartIndex <= d < i ==> SignedDistance(PolygonPlane(level, d), camPoint) >= -RadiusTolerance
    {
      if SignedDistance(PolygonPlane(level, i), camPoint) < -RadiusTolerance {
        return false;
      }
      i := i + 1;
    }
    return true;
  }

  method CheckSector(level: Level, s: SectorMeta, camPoint: Vec3) returns (ok: bool)
    requires WellFormed(level) && SectorRangeOk(level, s)
    ensures ok <==> InsideSector(level, s, camPoint)
  {
    var i := s.polygonStartIndex;
    while i < s.polygonStartIndex + s.polygonCount
      invariant s.polygonStartIndex <= i <= s.polygonStartIndex + s.polygonCount
      invariant forall d :: s.polygonStartIndex <= d < i ==> SignedDistance(PolygonPlane(level, d), camPoint) >= 0.0
    {
      if SignedDistance(PolygonPlane(level, i), camPoint) < 0.0 {
        return false;
      }
      i := i + 1;
    }
    return true;
  }

  // ---------------------------------------------------------------------------
  // What the traversal computes

  predicate AllRangesOk(level: Level, list: seq<SectorMeta>)
  {
    forall k :: 0 <= k < |list| ==> SectorRangeOk(level, list[k])
  }

  /** Some portal polygon of s leads to f. */
  ghost predicate IsNeighbour(level: Level, s: SectorMeta, f: SectorMeta)
    requires WellFormed(level) && SectorRangeOk(level, s)
  {
    exists d :: InRange(s, d) && level.polygons[d].connectedSectorId != NoSector
                && level.sectors[level.polygons[d].connectedSectorId] == f
  }

  /** Sector visited[j] has a portal to f, and f's id is not among visited[0..j]:
      the visited list as it stood while visited[j] was expanded. */
  ghost predicate AdmittedBy(level: Level, visited: seq<SectorMeta>, j: int, f: SectorMeta)
    requires WellFormed(level) && AllRangesOk(level, visited)
  {
    && 0 <= j < |visited|
    && IsNeighbour(level, visited[j], f)
    && (forall i :: 0 <= i <= j ==> visited[i].sectorId != f.sectorId)
  }

  /** f may enter the next frontier: it passes the radius test and some visited sector admits it. */
  ghost predicate Admitted(level: Level, camPoint: Vec3, visited: seq<SectorMeta>, f: SectorMeta)
    requires WellFormed(level) && AllRangesOk(level, visited) && SectorRangeOk(level, f)
  {
    WithinRadius(level, f, camPoint) && exists j :: AdmittedBy(level, visited, j, f)
  }

  /** Every neighbour of visited[j] passing the radius test is visited or waiting in `pending`. */
  ghost predicate NeighboursCovered(level: Level, camPoint: Vec3, visited: seq<SectorMeta>, j: int, pending: seq<SectorMeta>)
    requires WellFormed(level) && AllRangesOk(level, visited) && 0 <= j < |visited|
  {
    forall d :: InRange(visited[j], d) && level.polygons[d].connectedSectorId != NoSector
      && WithinRadius(level, level.sectors[level.polygons[d].connectedSectorId], camPoint)
      ==> ContainsId(visited, level.sectors[level.polygons[d].connectedSectorId].sectorId)
          || level.sectors[level.polygons[d].connectedSectorId] in pending
  }

  /** The sectors behind the portal polygons polygonStartIndex .. end - 1 of
      `sector`, in polygon order, that are not in the visited list by id and
      pass the radius test: what expanding `sector` appends to the next
      frontier (one entry per portal, so a sector reached twice is listed twice). */
  ghost function NewNeighbours(level: Level, camPoint: Vec3, visited: seq<SectorMeta>, sector: SectorMeta, end: int)
    : (r: seq<SectorMeta>)
    requires WellFormed(level) && SectorRangeOk(level, sector)
    requires sector.polygonStartIndex <= end <= sector.polygonStartIndex + sector.polygonCount
    ensures |r| <= end - sector.polygonStartIndex
    decreases end - sector.polygonStartIndex
  {
    if end == sector.polygonStartIndex then []
    else
      var id := level.polygons[end - 1].connectedSectorId;
      NewNeighbours(level, camPoint, visited, sector, end - 1)
      + (if id != NoSector && !ContainsId(visited, level.sectors[id].sectorId) && WithinRadius(level, level.sectors[id], camPoint)
         then [level.sectors[id]] else [])
  }

  /** What expanding the first n frontier entries in order appends to the
      next frontier: each entry's new neighbours, judged against the visited
      list as it stands once that entry is visited. */
  ghost function FrontierNeighbours(level: Level, camPoint: Vec3, visitedBefore: seq<SectorMeta>, frontier: seq<SectorMeta>, n: nat)
    : (r: seq<SectorMeta>)
    requires WellFormed(level) && AllRangesOk(level, frontier) && n <= |frontier|
  {
    if n == 0 then []
    else
      FrontierNeighbours(level, camPoint, visitedBefore, frontier, n - 1)
      + NewNeighbours(level, camPoint, visitedBefore + frontier[..n], frontier[n - 1],
                      frontier[n - 1].polygonStartIndex + frontier[n - 1].polygonCount)
  }

  /** Polygon d of the sector leads to f, which is not visited and passes the radius test. */
  ghost predicate NewNeighbourAt(level: Level, camPoint: Vec3, visited: seq<SectorMeta>, d: int, f: SectorMeta)
    requires WellFormed(level) && 0 <= d < |level.polygons|
  {
    && level.polygons[d].connectedSectorId != NoSector
    && level.sectors[level.polygons[d].connectedSectorId] == f
    && !ContainsId(visited, f.sectorId) && WithinRadius(level, f, camPoint)
  }

  /** A sector is listed exactly when some portal polygon of the range leads
      to it, it is not visited, and it passes the radius test. */
  lemma {:induction false} NewNeighboursMembers(level: Level, camPoint: Vec3, visited: seq<SectorMeta>, sector: SectorMeta,
                                                end: int, f: SectorMeta)
    requires WellFormed(level) && SectorRangeOk(level, sector)
    requires sector.polygonStartIndex <= end <= sector.polygonStartIndex + sector.polygonCount
    ensures f in NewNeighbours(level, camPoint, visited, sector, end) <==>
              exists d :: sector.polygonStartIndex <= d < end && NewNeighbourAt(level, camPoint, visited, d, f)
    decreases end - sector.polygonStartIndex
  {
    if end > sector.polygonStartIndex {
      NewNeighboursMembers(level, camPoint, visited, sector, end - 1, f);
      if NewNeighbourAt(level, camPoint, visited, end - 1, f) {
        assert f in NewNeighbours(level, camPoint, visited, sector, end);
      }
    }
  }

  /** Every listed sector is admitted by `sector`, the last visited one. */
  lemma {:induction false} NewNeighboursAdmitted(level: Level, camPoint: Vec3, visited: seq<SectorMeta>, sector: SectorMeta,
                                                 end: int, f: SectorMeta)
    requires WellFormed(level) && SectorRangeOk(level, sector) && AllRangesOk(level, visited)
    requires |visited| >= 1 && visited[|visited| - 1] == sector
    requires sector.polygonStartIndex <= end <= sector.polygonStartIndex + sector.polygonCount
    requires f in NewNeighbours(level, camPoint, visited, sector, end)
    ensures SectorRangeOk(level, f) && WithinRadius(level, f, camPoint)
    ensures AdmittedBy(level, visited, |visited| - 1, f)
    decreases end - sector.polygonStartIndex
  {
    if f in NewNeighbours(level, camPoint, visited, sector, end - 1) {
      NewNeighboursAdmitted(level, camPoint, visited, sector, end - 1, f);
    } else {
      assert InRange(sector, end - 1);
      assert IsNeighbour(level, visited[|visited| - 1], f);
    }
  }

  /** Every neighbour of `sector`, the last visited one, that passes the
      radius test is visited or listed. */
  lemma NewNeighboursCover(level: Level, camPoint: Vec3, visited: seq<SectorMeta>, sector: SectorMeta, start: seq<SectorMeta>)
    requires WellFormed(level) && SectorRangeOk(level, sector) && AllRangesOk(level, visited)
    requires |visited| >= 1 && visited[|visited| - 1] == sector
    ensures NeighboursCovered(level, camPoint, visited, |visited| - 1,
                              start + NewNeighbours(level, camPoint, visited, sector, sector.polygonStartIndex + sector.polygonCount))
  {
    var end := sector.polygonStartIndex + sector.polygonCount;
    forall d | InRange(sector, d) && level.polygons[d].connectedSectorId != NoSector
      && WithinRadius(level, level.sectors[level.polygons[d].connectedSectorId], camPoint)
      ensures ContainsId(visited, level.sectors[level.polygons[d].connectedSectorId].sectorId)
              || level.sectors[level.polygons[d].connectedSectorId] in start + NewNeighbours(level, camPoint, visited, sector, end)
    {
      var f := level.sectors[level.polygons[d].connectedSectorId];
      if !ContainsId(visited, f.sectorId) {
        assert NewNeighbourAt(level, camPoint, visited, d, f);
        NewNeighboursMembers(level, camPoint, visited, sector, end, f);
      }
    }
  }

  /** Every neighbour passing the radius test of every visited sector is visited
      or waiting in `pending`. */
  ghost predicate ClosedBut(level: Level, camPoint: Vec3, visited: seq<SectorMeta>, pending: seq<SectorMeta>)
    requires WellFormed(level) && AllRangesOk(level, visited)
  {
    forall j :: 0 <= j < |visited| ==> NeighboursCovered(level, camPoint, visited, j, pending)
  }

  /** Every neighbour passing the radius test of every visited sector is visited. */
  ghost predicate Closed(level: Level, camPoint: Vec3, visited: seq<SectorMeta>)
    requires WellFormed(level) && AllRangesOk(level, visited)
  {
    ClosedBut(level, camPoint, visited, [])
  }

  /** The last sector of the list that contains the point, or dflt when none does. */
  ghost function LastInside(level: Level, camPoint: Vec3, list: seq<SectorMeta>, dflt: SectorMeta): (r: SectorMeta)
    requires WellFormed(level) && AllRangesOk(level, list)
  {
    if |list| == 0 then dflt
    else if InsideSector(level, list[|list| - 1], camPoint) then list[|list| - 1]
    else LastInside(level, camPoint, list[..|list| - 1], dflt)
  }

  lemma {:induction false} LastInsideIsInside(level: Level, camPoint: Vec3, list: seq<SectorMeta>, dflt: SectorMeta)
    requires WellFormed(level) && AllRangesOk(level, list)
    ensures var r := LastInside(level, camPoint, list, dflt);
            (r == dflt && forall k :: 0 <= k < |list| ==> !InsideSector(level, list[k], camPoint))
            || (exists k :: (0 <= k < |list| && r == list[k] && InsideSector(level, r, camPoint)
                             && forall m :: k < m < |list| ==> !InsideSector(level, list[m], camPoint)))
  {
    if |list| > 0 {
      var last := list[|list| - 1];
      if !InsideSector(level, last, camPoint) {
        var init := list[..|list| - 1];
        LastInsideIsInside(level, camPoint, init, dflt);
        var r := LastInside(level, camPoint, init, dflt);
        if r == dflt && forall k :: 0 <= k < |init| ==> !InsideSector(level, init[k], camPoint) {
          assert forall k :: 0 <= k < |list| ==> !InsideSector(level, list[k], camPoint) by {
            forall k | 0 <= k < |list| ensures !InsideSector(level, list[k], camPoint) {
              if k < |init| { assert list[k] == init[k]; }
            }
          }
        } else {
          var k :| 0 <= k < |init| && r == init[k] && InsideSector(level, r, camPoint)
                  && forall m :: k < m < |init| ==> !InsideSector(level, init[m], camPoint);
          assert list[k] == init[k];
          forall m | k < m < |list| ensures !InsideSector(level, list[m], camPoint) {
            if m < |init| { assert list[m] == init[m]; }
          }
        }
      }
    }
  }

  /** The sector GetSectors leaves as current contains the viewer, or is the old one. */
  lemma LastInsideWithinRadius(level: Level, camPoint: Vec3, list: seq<SectorMeta>, dflt: SectorMeta)
    requires WellFormed(level) && AllRangesOk(level, list) && SectorRangeOk(level, dflt)
    ensures var r := LastInside(level, camPoint, list, dflt);
            (r == dflt || r in list)
            && (r == dflt || (InsideSector(level, r, camPoint) && WithinRadius(level, r, camPoint)))
  {
    LastInsideIsInside(level, camPoint, list, dflt);
  }

  /** Every sector of the queue is admitted by the visited list. */
  ghost predicate AllAdmitted(level: Level, camPoint: Vec3, visited: seq<SectorMeta>, queue: seq<SectorMeta>)
    requires WellFormed(level) && AllRangesOk(level, visited) && AllRangesOk(level, queue)
  {
    forall f {:trigger Admitted(level, camPoint, visited, f)} :: f in queue ==> Admitted(level, camPoint, visited, f)
  }

  lemma AdmittedByGrows(level: Level, visited: seq<SectorMeta>, x: SectorMeta, j: int, f: SectorMeta)
    requires WellFormed(level) && AllRangesOk(level, visited) && SectorRangeOk(level, x)
    requires AdmittedBy(level, visited, j, f)
    ensures AllRangesOk(level, visited + [x]) && AdmittedBy(level, visited + [x], j, f)
  {
    var v := visited + [x];
    assert v[j] == visited[j];
    forall i | 0 <= i <= j ensures v[i].sectorId != f.sectorId {
      assert v[i] == visited[i];
    }
  }

  lemma AdmittedGrows(level: Level, camPoint: Vec3, visited: seq<SectorMeta>, x: SectorMeta, f: SectorMeta)
    requires WellFormed(level) && AllRangesOk(level, visited) && SectorRangeOk(level, x) && SectorRangeOk(level, f)
    requires Admitted(level, camPoint, visited, f)
    ensures AllRangesOk(level, visited + [x]) && Admitted(level, camPoint, visited + [x], f)
  {
    var j :| AdmittedBy(level, visited, j, f);
    AdmittedByGrows(level, visited, x, j, f);
  }

  lemma AdmittedAllGrow(level: Level, camPoint: Vec3, prefix: seq<SectorMeta>, x: SectorMeta, fs: seq<SectorMeta>)
    requires WellFormed(level) && AllRangesOk(level, prefix) && SectorRangeOk(level, x) && AllRangesOk(level, fs)
    requires AllAdmitted(level, camPoint, prefix, fs)
    ensures AllRangesOk(level, prefix + [x])
    ensures AllAdmitted(level, camPoint, prefix + [x], fs)
  {
    forall f | f in fs ensures Admitted(level, camPoint, prefix + [x], f) {
      AdmittedGrows(level, camPoint, prefix, x, f);
    }
  }

  /** A list that extends one of admitted sectors with admitted sectors holds only admitted sectors. */
  lemma AdmittedPrefix(level: Level, camPoint: Vec3, prefix: seq<SectorMeta>, shorter: seq<SectorMeta>, longer: seq<SectorMeta>)
    requires WellFormed(level) && AllRangesOk(level, prefix) && AllRangesOk(level, shorter)
    requires |longer| >= |shorter| && longer[..|shorter|] == shorter
    requires AllAdmitted(level, camPoint, prefix, shorter)
    requires forall k :: |shorter| <= k < |longer| ==>
               SectorRangeOk(level, longer[k]) && Admitted(level, camPoint, prefix, longer[k])
    ensures AllRangesOk(level, longer)
    ensures AllAdmitted(level, camPoint, prefix, longer)
  {
    forall k | 0 <= k < |shorter| ensures longer[k] == shorter[k] {
      assert longer[..|shorter|][k] == longer[k];
    }
  }

  /** Visiting the next frontier sector, and queuing its unvisited admitted
      neighbours, keeps the visited list closed up to what is still pending. */
  lemma ClosedStep(level: Level, camPoint: Vec3, before: seq<SectorMeta>, sector: SectorMeta,
                   rest: seq<SectorMeta>, pendingBefore: seq<SectorMeta>, pendingAfter: seq<SectorMeta>)
    requires WellFormed(level) && AllRangesOk(level, before) && SectorRangeOk(level, sector)
    requires ClosedBut(level, camPoint, before, [sector] + rest + pendingBefore)
    requires |pendingAfter| >= |pendingBefore| && pendingAfter[..|pendingBefore|] == pendingBefore
    requires AllRangesOk(level, before + [sector]) && NeighboursCovered(level, camPoint, before + [sector], |before|, pendingAfter)
    ensures ClosedBut(level, camPoint, before + [sector], rest + pendingAfter)
  {
    var after := before + [sector];
    assert after[|before|] == sector;
    assert ContainsId(after, sector.sectorId);
    forall j | 0 <= j < |after| ensures NeighboursCovered(level, camPoint, after, j, rest + pendingAfter) {
      forall d | InRange(after[j], d) && level.polygons[d].connectedSectorId != NoSector
        && WithinRadius(level, level.sectors[level.polygons[d].connectedSectorId], camPoint)
        ensures ContainsId(after, level.sectors[level.polygons[d].connectedSectorId].sectorId)
                || level.sectors[level.polygons[d].connectedSectorId] in rest + pendingAfter
      {
        var f := level.sectors[level.polygons[d].connectedSectorId];
        if j < |before| {
          assert after[j] == before[j];
          assert NeighboursCovered(level, camPoint, before, j, [sector] + rest + pendingBefore);
          if ContainsId(before, f.sectorId) {
            var i :| 0 <= i < |before| && before[i].sectorId == f.sectorId;
            assert after[i] == before[i];
          } else if f != sector && f !in rest {
            assert f in pendingBefore;
            var i :| 0 <= i < |pendingBefore| && pendingBefore[i] == f;
            assert pendingAfter[..|pendingBefore|][i] == pendingAfter[i];
          }
        }
      }
    }
  }

  /** Appending one sector to the list: the last containing one is that
      sector when it contains the point, and otherwise unchanged. */
  lemma LastInsideAppend(level: Level, camPoint: Vec3, before: seq<SectorMeta>, sector: SectorMeta, dflt: SectorMeta)
    requires WellFormed(level) && AllRangesOk(level, before) && SectorRangeOk(level, sector)
    ensures AllRangesOk(level, before + [sector])
    ensures LastInside(level, camPoint, before + [sector], dflt)
         == if InsideSector(level, sector, camPoint) then sector else LastInside(level, camPoint, before, dflt)
  {
    assert (before + [sector])[..|before|] == before;
  }

  /** visited[k] passed the radius test and was admitted by an earlier visited sector. */
  ghost predicate AdmittedAt(level: Level, camPoint: Vec3, visited: seq<SectorMeta>, k: int)
    requires WellFormed(level) && AllRangesOk(level, visited) && 0 <= k < |visited|
  {
    WithinRadius(level, visited[k], camPoint) && exists j :: j < k && AdmittedBy(level, visited, j, visited[k])
  }

  /** Every visited sector after the first was admitted by an earlier one. */
  ghost predicate Trail(level: Level, camPoint: Vec3, visited: seq<SectorMeta>)
    requires WellFormed(level)
  {
    AllRangesOk(level, visited) && forall k :: 1 <= k < |visited| ==> AdmittedAt(level, camPoint, visited, k)
  }

  lemma {:induction false} TrailExtend(level: Level, camPoint: Vec3, visited: seq<SectorMeta>, x: SectorMeta)
    requires WellFormed(level) && Trail(level, camPoint, visited) && SectorRangeOk(level, x)
    requires |visited| > 0 ==> Admitted(level, camPoint, visited, x)
    ensures Trail(level, camPoint, visited + [x])
  {
    var v := visited + [x];
    assert AllRangesOk(level, v);
    forall k | 1 <= k < |v| ensures AdmittedAt(level, camPoint, v, k) {
      if k == |visited| {
        var j :| AdmittedBy(level, visited, j, x);
        AdmittedByGrows(level, visited, x, j, x);
      } else {
        assert v[k] == visited[k];
        assert AdmittedAt(level, camPoint, visited, k);
        var j :| j < k && AdmittedBy(level, visited, j, visited[k]);
        AdmittedByGrows(level, visited, x, j, visited[k]);
      }
    }
  }

  /** One IgnoreCollision call of the broad-phase collision filter. */
  datatype CollisionToggle = IgnoreCollision(sectorId: int, ignore: bool)

  function Toggles(list: seq<SectorMeta>, ignore: bool): (r: seq<CollisionToggle>)
    ensures |r| == |list|
    ensures forall k :: 0 <= k < |list| ==> r[k] == IgnoreCollision(list[k].sectorId, ignore)
  {
    if |list| == 0 then [] else Toggles(list[..|list| - 1], ignore) + [IgnoreCollision(list[|list| - 1].sectorId, ignore)]
  }

  lemma ToggleAppend(list: seq<SectorMeta>, s: SectorMeta, ignore: bool)
    ensures Toggles(list + [s], ignore) == Toggles(list, ignore) + [IgnoreCollision(s.sectorId, ignore)]
  {
    assert (list + [s])[..|list|] == list;
  }

  // ---------------------------------------------------------------------------
  // The resolver state and GetSectors

  /** The frontier seen from position c: the entries already visited, the
      one at c and those after it, followed by the list being built. */
  lemma SplitAt(frontier: seq<SectorMeta>, c: nat, built: seq<SectorMeta>)
    requires c <= |frontier|
    ensures c == 0 && built == [] ==> frontier[c..] + built == frontier
    ensures c == |frontier| ==> frontier[..c] == frontier && frontier[c..] + built == built
    ensures c < |frontier| ==> && frontier[c..] == [frontier[c]] + frontier[c + 1..]
                               && frontier[c..] + built == [frontier[c]] + frontier[c + 1..] + built
                               && frontier[..c + 1] == frontier[..c] + [frontier[c]]
  {
    if c < |frontier| {
      assert frontier[c..] == [frontier[c]] + frontier[c + 1..];
    }
  }

  class SectorResolver {
    /** Visited list of the current update, in traversal order. */
    var contains: seq<SectorMeta>
    /** Visited list of the last update that changed it. */
    var oldContains: seq<SectorMeta>
    var currentSector: SectorMeta
    /** The two ping-pong frontier lists (ListOfSectorLists). */
    var sectorLists: seq<seq<SectorMeta>>
    /** The IgnoreCollision calls made so far. */
    var collisionLog: seq<CollisionToggle>

    ghost predicate Valid()
      reads this
    {
      |sectorLists| == 2
    }

    constructor (start: SectorMeta)
      ensures Valid() && contains == [] && oldContains == [] && currentSector == start
      ensures sectorLists == [[], []] && collisionLog == []
    {
      contains, oldContains, currentSector := [], [], start;
      sectorLists := [[], []];
      collisionLog := [];
    }

    /** The polygon loop of GetSectors for one frontier sector, the last visited
        one: appends to frontier list `output` every neighbour that is not yet
        visited and passes the radius test. */
    method ExpandSector(level: Level, camPoint: Vec3, sector: SectorMeta, output: nat)
      requires Valid() && output < 2 && WellFormed(level) && SectorRangeOk(level, sector)
      requires AllRangesOk(level, contains) && |contains| >= 1 && contains[|contains| - 1] == sector
      modifies this`sectorLists
      ensures Valid() && sectorLists[1 - output] == old(sectorLists[1 - output])
      ensures |sectorLists[output]| >= |old(sectorLists[output])|
      ensures sectorLists[output][..|old(sectorLists[output])|] == old(sectorLists[output])
      ensures forall k :: |old(sectorLists[output])| <= k < |sectorLists[output]| ==>
                SectorRangeOk(level, sectorLists[output][k])
                && Admitted(level, camPoint, contains, sectorLists[output][k])
      ensures NeighboursCovered(level, camPoint, contains, |contains| - 1, sectorLists[output])
      ensures sectorLists[output] == old(sectorLists[output])
                + NewNeighbours(level, camPoint, contains, sector, sector.polygonStartIndex + sector.polygonCount)
    {
      ghost var start := sectorLists[output];
      var d := sector.polygonStartIndex;
      while d < sector.polygonStartIndex + sector.polygonCount
        invariant sector.polygonStartIndex <= d <= sector.polygonStartIndex + sector.polygonCount
        invariant |sectorLists| == 2 && sectorLists[1 - output] == old(sectorLists[1 - output])
        invariant sectorLists[output] == start + NewNeighbours(level, camPoint, contains, sector, d)
      {
        var connectedsector := level.polygons[d].connectedSectorId;
        if connectedsector != NoSector {
          var portalsector := level.sectors[connectedsector];
          var seen := SectorsContains(contains, portalsector.sectorId);
          if !seen {
            var radius := CheckRadius(level, portalsector, camPoint);
            if radius {
              sectorLists := sectorLists[output := sectorLists[output] + [portalsector]];
            }
          }
        }
        d := d + 1;
      }
      ghost var added := NewNeighbours(level, camPoint, contains, sector, d);
      assert sectorLists[output][..|start|] == start;
      forall k | |start| <= k < |sectorLists[output]|
        ensures SectorRangeOk(level, sectorLists[output][k]) && Admitted(level, camPoint, contains, sectorLists[output][k])
      {
        assert sectorLists[output][k] == added[k - |start|];
        NewNeighboursAdmitted(level, camPoint, contains, sector, d, sectorLists[output][k]);
      }
      NewNeighboursCover(level, camPoint, contains, sector, start);
    }

    /** The state of the frontier loop of GetSectors after the first c
        entries of `frontier` were visited: the visited list grew by them,
        the entries still waiting and the list being built are admitted,
        and every visited sector's neighbours are visited or waiting. */
    ghost predicate FrontierAt(level: Level, camPoint: Vec3, output: nat, frontier: seq<SectorMeta>, c: nat,
                               visitedBefore: seq<SectorMeta>, dflt: SectorMeta, logStart: seq<CollisionToggle>)
      reads this
      requires WellFormed(level)
    {
      && Valid() && output < 2 && c <= |frontier| && AllRangesOk(level, frontier)
      && contains == visitedBefore + frontier[..c] && (|visitedBefore| == 0 ==> |frontier| <= 1)
      && Trail(level, camPoint, contains) && AllRangesOk(level, sectorLists[output])
      && (|contains| > 0 ==> AllAdmitted(level, camPoint, contains, frontier[c..]))
      && AllAdmitted(level, camPoint, contains, sectorLists[output])
      && ClosedBut(level, camPoint, contains, frontier[c..] + sectorLists[output])
      && currentSector == LastInside(level, camPoint, contains, dflt)
      && collisionLog == logStart + Toggles(contains, false)
    }

    /** One step of the frontier loop of GetSectors: visits `sector`, the next
        frontier entry (`rest` are the ones after it), expands it into list
        `output` and makes it current when it contains the viewer. */
    method VisitSector(level: Level, camPoint: Vec3, sector: SectorMeta, output: nat,
                       ghost rest: seq<SectorMeta>, ghost dflt: SectorMeta, ghost logStart: seq<CollisionToggle>)
      requires Valid() && output < 2 && WellFormed(level) && SectorRangeOk(level, sector) && AllRangesOk(level, rest)
      requires Trail(level, camPoint, contains) && AllRangesOk(level, sectorLists[output])
      requires |contains| == 0 ==> rest == []
      requires |contains| > 0 ==> AllAdmitted(level, camPoint, contains, [sector] + rest)
      requires AllAdmitted(level, camPoint, contains, sectorLists[output])
      requires ClosedBut(level, camPoint, contains, [sector] + rest + sectorLists[output])
      requires currentSector == LastInside(level, camPoint, contains, dflt)
      requires collisionLog == logStart + Toggles(contains, false)
      modifies this`contains, this`sectorLists, this`collisionLog, this`currentSector
      ensures Valid() && sectorLists[1 - output] == old(sectorLists[1 - output])
      ensures contains == old(contains) + [sector]
      ensures Trail(level, camPoint, contains) && AllRangesOk(level, sectorLists[output])
      ensures AllAdmitted(level, camPoint, contains, rest)
      ensures AllAdmitted(level, camPoint, contains, sectorLists[output])
      ensures ClosedBut(level, camPoint, contains, rest + sectorLists[output])
      ensures sectorLists[output] == old(sectorLists[output])
                + NewNeighbours(level, camPoint, contains, sector, sector.polygonStartIndex + sector.polygonCount)
      ensures currentSector == LastInside(level, camPoint, contains, dflt)
      ensures collisionLog == logStart + Toggles(contains, false)
    {
      ghost var before := contains;
      ghost var pendingBefore := sectorLists[output];
      if |before| > 0 {
        assert Admitted(level, camPoint, before, sector) by {
          assert sector in [sector] + rest;
        }
        assert AllAdmitted(level, camPoint, before, rest) by {
          forall f | f in rest ensures Admitted(level, camPoint, before, f) {
            assert f in [sector] + rest;
          }
        }
        AdmittedAllGrow(level, camPoint, before, sector, rest);
      }
      TrailExtend(level, camPoint, before, sector);
      contains := contains + [sector];
      ToggleAppend(before, sector, false);
      collisionLog := collisionLog + [IgnoreCollision(sector.sectorId, false)];
      AdmittedAllGrow(level, camPoint, before, sector, pendingBefore);

      ExpandSector(level, camPoint, sector, output);

      AdmittedPrefix(level, camPoint, contains, pendingBefore, sectorLists[output]);
      ClosedStep(level, camPoint, before, sector, rest, pendingBefore, sectorLists[output]);
      LastInsideAppend(level, camPoint, before, sector, dflt);

      var check := CheckSector(level, sector, camPoint);
      if check {
        currentSector := sector;
      }
    }

    /** VisitSector for frontier entry c, stated through the loop state. */
    method VisitAt(level: Level, camPoint: Vec3, sector: SectorMeta, output: nat, c: nat,
                   ghost frontier: seq<SectorMeta>, ghost visitedBefore: seq<SectorMeta>,
                   ghost dflt: SectorMeta, ghost logStart: seq<CollisionToggle>)
      requires WellFormed(level) && c < |frontier| && sector == frontier[c]
      requires FrontierAt(level, camPoint, output, frontier, c, visitedBefore, dflt, logStart)
      modifies this`contains, this`sectorLists, this`collisionLog, this`currentSector
      ensures FrontierAt(level, camPoint, output, frontier, c + 1, visitedBefore, dflt, logStart)
      ensures sectorLists[1 - output] == old(sectorLists[1 - output])
      ensures old(sectorLists[output]) == FrontierNeighbours(level, camPoint, visitedBefore, frontier, c)
              ==> sectorLists[output] == FrontierNeighbours(level, camPoint, visitedBefore, frontier, c + 1)
    {
      SplitAt(frontier, c, sectorLists[output]);
      assert SectorRangeOk(level, sector) && AllRangesOk(level, frontier[c + 1..]);
      VisitSector(level, camPoint, sector, output, frontier[c + 1..], dflt, logStart);
      assert contains == visitedBefore + frontier[..c + 1];
    }

    /** The frontier loop of GetSectors for one level: visits every sector of
        list `input` in order, expanding each into list `output`. */
    method ExpandFrontier(level: Level, camPoint: Vec3, input: nat, output: nat,
                          ghost dflt: SectorMeta, ghost logStart: seq<CollisionToggle>)
      requires Valid() && input < 2 && output == 1 - input && WellFormed(level)
      requires sectorLists[output] == [] && (|contains| == 0 ==> |sectorLists[input]| <= 1)
      requires Trail(level, camPoint, contains) && AllRangesOk(level, sectorLists[input])
      requires |contains| > 0 ==> AllAdmitted(level, camPoint, contains, sectorLists[input])
      requires ClosedBut(level, camPoint, contains, sectorLists[input])
      requires currentSector == LastInside(level, camPoint, contains, dflt)
      requires collisionLog == logStart + Toggles(contains, false)
      modifies this`contains, this`sectorLists, this`collisionLog, this`currentSector
      ensures Valid() && sectorLists[input] == old(sectorLists[input])
      ensures contains == old(contains) + old(sectorLists[input])
      ensures Trail(level, camPoint, contains) && AllRangesOk(level, sectorLists[output])
      ensures AllAdmitted(level, camPoint, contains, sectorLists[output])
      ensures ClosedBut(level, camPoint, contains, sectorLists[output])
      ensures sectorLists[output] == FrontierNeighbours(level, camPoint, old(contains), old(sectorLists[input]), |old(sectorLists[input])|)
      ensures currentSector == LastInside(level, camPoint, contains, dflt)
      ensures collisionLog == logStart + Toggles(contains, false)
    {
      ghost var frontier := sectorLists[input];
      ghost var visitedBefore := contains;
      var c := 0;
      SplitAt(frontier, 0, sectorLists[output]);
      assert contains == visitedBefore + frontier[..0];
      while c < |sectorLists[input]|
        invariant |sectorLists| == 2 && sectorLists[input] == frontier
        invariant FrontierAt(level, camPoint, output, frontier, c, visitedBefore, dflt, logStart)
        invariant sectorLists[output] == FrontierNeighbours(level, camPoint, visitedBefore, frontier, c)
      {
        VisitAt(level, camPoint, sectorLists[input][c], output, c, frontier, visitedBefore, dflt, logStart);
        c := c + 1;
      }
      SplitAt(frontier, c, sectorLists[output]);
    }

    /** The first loop of GetSectors: re-enables the collision filter for every
        sector of the previous visited list. */
    method IgnoreOldContains()
      modifies this`collisionLog
      ensures collisionLog == old(collisionLog) + Toggles(oldContains, true)
    {
      var a := 0;
      while a < |oldContains|
        invariant 0 <= a <= |oldContains|
        invariant collisionLog == old(collisionLog) + Toggles(oldContains[..a], true)
      {
        ToggleAppend(oldContains[..a], oldContains[a], true);
        assert oldContains[..a + 1] == oldContains[..a] + [oldContains[a]];
        collisionLog := collisionLog + [IgnoreCollision(oldContains[a].sectorId, true)];
        a := a + 1;
      }
      assert oldContains[..a] == oldContains;
    }

    /** The state of the level loop of GetSectors when list `side` is the
        next frontier: the visited list starts with aSector (before the first
        level the frontier is aSector alone), the frontier is admitted, and
        every visited sector's neighbours are visited or in the frontier. */
    ghost predicate LevelAt(level: Level, camPoint: Vec3, aSector: SectorMeta, side: nat,
                            dflt: SectorMeta, logStart: seq<CollisionToggle>)
      reads this
      requires WellFormed(level)
    {
      && Valid() && side < 2
      && (if contains == [] then sectorLists[side] == [aSector] else contains[0] == aSector)
      && Trail(level, camPoint, contains) && AllRangesOk(level, sectorLists[side])
      && (|contains| > 0 ==> AllAdmitted(level, camPoint, contains, sectorLists[side]))
      && ClosedBut(level, camPoint, contains, sectorLists[side])
      && currentSector == LastInside(level, camPoint, contains, dflt)
      && collisionLog == logStart + Toggles(contains, false)
    }

    /** One pass of the level loop: list `output` is cleared, and when the
        frontier in list `input` is not empty it is visited and expanded into
        list `output`. */
    method ExpandLevel(level: Level, camPoint: Vec3, aSector: SectorMeta, input: nat, output: nat,
                       ghost dflt: SectorMeta, ghost logStart: seq<CollisionToggle>) returns (empty: bool)
      requires WellFormed(level) && output == 1 - input
      requires LevelAt(level, camPoint, aSector, input, dflt, logStart)
      modifies this`contains, this`sectorLists, this`collisionLog, this`currentSector
      ensures empty == (old(sectorLists[input]) == [])
      ensures empty ==> LevelAt(level, camPoint, aSector, input, dflt, logStart) && sectorLists[input] == []
      ensures !empty ==> LevelAt(level, camPoint, aSector, output, dflt, logStart) && contains != []
      ensures !empty ==> contains == old(contains) + old(sectorLists[input])
                         && sectorLists[output] == FrontierNeighbours(level, camPoint, old(contains), old(sectorLists[input]), |old(sectorLists[input])|)
    {
      sectorLists := sectorLists[output := []];
      if |sectorLists[input]| == 0 {
        return true;
      }
      ghost var before := contains;
      ExpandFrontier(level, camPoint, input, output, dflt, logStart);
      assert |before| > 0 ==> contains[0] == before[0];
      empty := false;
    }

    /** The level loop of GetSectors: at most MaxLevels frontiers, stopping at
        the first empty one. */
    method ExpandLevels(level: Level, aSector: SectorMeta, camPoint: Vec3,
                        ghost dflt: SectorMeta, ghost logStart: seq<CollisionToggle>) returns (levels: nat, complete: bool)
      requires WellFormed(level) && SectorRangeOk(level, aSector)
      requires contains == [] && sectorLists == [[aSector], []]
      requires currentSector == dflt && collisionLog == logStart
      modifies this`contains, this`sectorLists, this`collisionLog, this`currentSector
      ensures Valid()
      ensures |contains| >= 1 && contains[0] == aSector && Trail(level, camPoint, contains)
      ensures 1 <= levels <= MaxLevels && (!complete ==> levels == MaxLevels)
      ensures complete ==> Closed(level, camPoint, contains)
      ensures currentSector == LastInside(level, camPoint, contains, dflt)
      ensures collisionLog == logStart + Toggles(contains, false)
    {
      var input, output := 0, 1;
      var b := 0;
      complete := false;
      assert Toggles([], false) == [];
      while b < MaxLevels
        invariant 0 <= b <= MaxLevels && (b == 0) == (contains == [])
        invariant LevelAt(level, camPoint, aSector, b % 2, dflt, logStart)
        invariant !complete
      {
        if b % 2 == 0 {
          input, output := 0, 1;
        } else {
          input, output := 1, 0;
        }
        var empty := ExpandLevel(level, camPoint, aSector, input, output, dflt, logStart);
        if empty {
          complete := true;
          break;
        }
        NextParity(b);
        b := b + 1;
      }
      levels := b;
      if !complete {
        complete := |sectorLists[b % 2]| == 0;
      }
    }

    /** The last loop of GetSectors: the cached list is replaced by a copy of
        the visited list when their id sequences differ. */
    method SyncOldContains()
      modifies this`oldContains
      ensures oldContains == if SameIds(contains, old(oldContains)) then old(oldContains) else contains
      ensures SameIds(oldContains, contains)
    {
      var differ := SectorsDoNotEqual(contains, oldContains);
      if differ {
        oldContains := [];
        var e := 0;
        while e < |contains|
          invariant 0 <= e <= |contains| && oldContains == contains[..e]
        {
          assert contains[..e + 1] == contains[..e] + [contains[e]];
          oldContains := oldContains + [contains[e]];
          e := e + 1;
        }
        assert contains[..e] == contains;
      }
    }

    /** Recomputes the visited list from aSector and the viewer point, and the
        containing sector. complete is false when the level cap stopped the
        expansion with a frontier still waiting; levels is the number of
        frontiers expanded. */
    method GetSectors(level: Level, aSector: SectorMeta, camPoint: Vec3) returns (levels: nat, complete: bool)
      requires WellFormed(level) && SectorRangeOk(level, aSector)
      modifies this
      ensures Valid()
      ensures |contains| >= 1 && contains[0] == aSector && Trail(level, camPoint, contains)
      ensures 1 <= levels <= MaxLevels && (!complete ==> levels == MaxLevels)
      ensures complete ==> Closed(level, camPoint, contains)
      ensures currentSector == LastInside(level, camPoint, contains, old(currentSector))
      ensures oldContains == if SameIds(contains, old(oldContains)) then old(oldContains) else contains
      ensures SameIds(oldContains, contains)
      ensures collisionLog == old(collisionLog) + Toggles(old(oldContains), true) + Toggles(contains, false)
    {
      contains := [];
      sectorLists := [[], []];
      sectorLists := sectorLists[0 := [aSector]];
      IgnoreOldContains();
      levels, complete := ExpandLevels(level, aSector, camPoint, currentSector, collisionLog);
      SyncOldContains();
    }
  }
}
