/**
 * BuildGeometry as the loader runs it: the level lists are appended to wall
 * by wall and sector by sector, with a running polygon count per sector and a
 * running polygon start. Every step is proved to append exactly what the
 * functions of MapGeometry describe, so the finished lists are BuildLevel of
 * the map and carry its well-formedness.
 */
module GeometryBuilder {
  import opened Geometry
  import opened Tables
  import opened MapGeometry

  /** The sector's loop read into four lists: floor and ceiling points, and
      their planar texture coordinates; the ceiling lists are then reversed. */
  method FanRings(m: LevelMap, s: MapSector)
      returns (floorverts: seq<Vec3>, ceilingverts: seq<Vec3>, flooruvs: seq<Vec3>, ceilinguvs: seq<Vec3>)
    requires VerticesOk(m, s)
    ensures floorverts == FloorVerts(m, s) && ceilingverts == CeilingVerts(m, s)
    ensures flooruvs == FloorUvs(m, s) && ceilinguvs == CeilingUvs(m, s)
  {
    var n := |s.vertexIndices|;
    var yf, yc := Up(s.floorHeight), Up(s.ceilingHeight);
    floorverts, ceilingverts, flooruvs, ceilinguvs := [], [], [], [];
    var e := 0;
    while e < n
      invariant 0 <= e <= n
      invariant |floorverts| == |ceilingverts| == |flooruvs| == |ceilinguvs| == e
      invariant forall k :: 0 <= k < e ==> floorverts[k] == Ring(m, s, yf)[k] && ceilingverts[k] == Ring(m, s, yc)[k]
      invariant forall k :: 0 <= k < e ==> flooruvs[k] == RingUvs(m, s, FloorLayer)[k] && ceilinguvs[k] == RingUvs(m, s, CeilingLayer)[k]
    {
      var v := m.vertices[s.vertexIndices[e]];
      var x, z := Across(v.x), Across(v.y);
      floorverts := floorverts + [Vec3(z, yf, x)];
      ceilingverts := ceilingverts + [Vec3(z, yc, x)];
      flooruvs := flooruvs + [Vec3(z / 2.5, x / 2.5 * -1.0, FloorLayer)];
      ceilinguvs := ceilinguvs + [Vec3(z / 2.5, x / 2.5 * -1.0, CeilingLayer)];
      e := e + 1;
    }
    assert floorverts == Ring(m, s, yf) && flooruvs == RingUvs(m, s, FloorLayer);
    assert ceilingverts == Ring(m, s, yc) && ceilinguvs == RingUvs(m, s, CeilingLayer);
    ceilingverts := Reverse(ceilingverts);
    ceilinguvs := Reverse(ceilinguvs);
  }

  /** The fan loop over the corner pairs (e + 1, e + 2): a pair with a side,
      or an area, below TinyNumber is skipped, every other one adds the
      triangle (0, e + 1, e + 2). */
  method FanIndices(verts: seq<Vec3>) returns (tri: seq<int>)
    ensures tri == FanTriangles(verts)
  {
    tri := [];
    var e := 0;
    while e < |verts| - 2
      invariant 0 <= e <= FanSize(verts)
      invariant tri == Triples(FanKept(verts, e))
    {
      var v0, v1, v2 := verts[0], verts[e + 1], verts[e + 2];
      var e0, e1, e2 := Sub(v1, v0), Sub(v2, v1), Sub(v2, v0);
      if SqrMagnitude(e0) < TinyNumber || SqrMagnitude(e1) < TinyNumber || SqrMagnitude(e2) < TinyNumber {
        assert Degenerate(verts, e);
        assert FanKept(verts, e + 1) == FanKept(verts, e);
        e := e + 1;
        continue;
      }
      var edges := Cross(e0, e2);
      if SqrMagnitude(edges) < TinyNumber {
        assert Degenerate(verts, e);
        assert FanKept(verts, e + 1) == FanKept(verts, e);
        e := e + 1;
        continue;
      }
      assert !Degenerate(verts, e);
      assert FanKept(verts, e + 1) == FanKept(verts, e) + [e];
      TriplesSnoc(FanKept(verts, e), e);
      tri := tri + [0, e + 1, e + 2];
      e := e + 1;
    }
  }

  /** The loader's level lists, which BuildGeometry fills. */
  class LevelBuilder {
    var lists: Level

    constructor ()
      ensures lists == EmptyLevel
    {
      lists := EmptyLevel;
    }

    /** Appends an opaque wall quad of sector i: its four points, two
        triangles, four texture coordinates on the layer, a polygon and the
        plane through its first three points. */
    method AddWall(i: int, q: Quad, layer: real, normalize: Vec3 -> Vec3)
      modifies this
      ensures lists == AddPiece(old(lists), i, Wall(q, layer), normalize)
    {
      var baseVert := |lists.vertices|;
      var baseStartIndex := |lists.triangles|;
      var v0, v1, v2, v3 := q.v0, q.v1, q.v2, q.v3;
      var n := normalize(Cross(Sub(v1, v0), Sub(v2, v0)));
      var leftNormal := normalize(Sub(v2, v1));
      var left := Plane(leftNormal, -Dot(leftNormal, v1));
      var topNormal := normalize(Sub(v1, v0));
      var top := Plane(topNormal, -Dot(topNormal, v1));
      var uvs := [WallUv(left, top, v0, layer), WallUv(left, top, v1, layer), WallUv(left, top, v2, layer), WallUv(left, top, v3, layer)];
      assert uvs == WallTextures(q, layer, normalize);
      lists := lists.(vertices := lists.vertices + [v0, v1, v2, v3],
                      triangles := lists.triangles + [baseVert, baseVert + 1, baseVert + 2, baseVert, baseVert + 2, baseVert + 3],
                      textures := lists.textures + uvs,
                      polygons := lists.polygons + [PolygonMeta(-1, -1, baseStartIndex, 6, NoSector, i, i, i, |lists.planes|)],
                      planes := lists.planes + [Plane(n, -Dot(n, v0))]);
    }

    /** Appends a portal quad of sector i into sector wall: its four points,
        the closed loop of its four edges, zero texture coordinates, a polygon
        with neither collider nor opaque mesh, and its plane. */
    method AddPortal(i: int, q: Quad, wall: int, normalize: Vec3 -> Vec3)
      modifies this
      ensures lists == AddPiece(old(lists), i, Portal(q, wall), normalize)
    {
      var baseVert := |lists.vertices|;
      var baseStartIndex := |lists.edges|;
      var v0, v1, v2, v3 := q.v0, q.v1, q.v2, q.v3;
      var n := normalize(Cross(Sub(v1, v0), Sub(v2, v0)));
      lists := lists.(vertices := lists.vertices + [v0, v1, v2, v3],
                      edges := lists.edges + [baseVert, baseVert + 1, baseVert + 1, baseVert + 2,
                                              baseVert + 2, baseVert + 3, baseVert + 3, baseVert],
                      textures := lists.textures + [Zero, Zero, Zero, Zero],
                      polygons := lists.polygons + [PolygonMeta(baseStartIndex, 8, -1, -1, wall, i, -1, -1, |lists.planes|)],
                      planes := lists.planes + [Plane(n, -Dot(n, v0))]);
    }

    /** The upper wall of an edge of sector i (s) into sector t, where s's
        ceiling is above t's; added is the number of polygons appended. */
    method AddUpper(i: int, s: MapSector, t: MapSector, a: MapVertex, b: MapVertex, normalize: Vec3 -> Vec3)
        returns (added: int)
      modifies this
      ensures lists == AddOption(old(lists), i, UpperPiece(s, t, a, b), normalize)
      ensures added == OptionCount(UpperPiece(s, t, a, b))
    {
      added := 0;
      if s.ceilingHeight > t.ceilingHeight {
        var c0 := Up(s.ceilingHeight);
        var q;
        if s.floorHeight < t.ceilingHeight {
          var ceiling := if s.ceilingHeight > t.ceilingHeight then Up(t.ceilingHeight) else Up(s.ceilingHeight);
          q := WallQuad(a, b, ceiling, c0);
        } else {
          q := WallQuad(a, b, Up(s.floorHeight), c0);
        }
        AddWall(i, q, WallLayer, normalize);
        added := added + 1;
      }
    }

    /** The portal of an edge of sector i (s) into sector wall (t), where t is
        open; added is the number of polygons appended. */
    method AddOpening(i: int, s: MapSector, t: MapSector, wall: int, a: MapVertex, b: MapVertex, normalize: Vec3 -> Vec3)
        returns (added: int)
      modifies this
      ensures lists == AddOption(old(lists), i, PortalPiece(s, t, wall, a, b), normalize)
      ensures added == OptionCount(PortalPiece(s, t, wall, a, b))
    {
      added := 0;
      if t.ceilingHeight != t.floorHeight {
        var ceiling := if s.ceilingHeight > t.ceilingHeight then Up(t.ceilingHeight) else Up(s.ceilingHeight);
        var floor := if s.floorHeight > t.floorHeight then Up(s.floorHeight) else Up(t.floorHeight);
        AddPortal(i, WallQuad(a, b, floor, ceiling), wall, normalize);
        added := added + 1;
      }
    }

    /** The lower wall of an edge of sector i (s) into sector t, where s's
        floor is below t's; added is the number of polygons appended. */
    method AddLower(i: int, s: MapSector, t: MapSector, a: MapVertex, b: MapVertex, normalize: Vec3 -> Vec3)
        returns (added: int)
      modifies this
      ensures lists == AddOption(old(lists), i, LowerPiece(s, t, a, b), normalize)
      ensures added == OptionCount(LowerPiece(s, t, a, b))
    {
      added := 0;
      if s.floorHeight < t.floorHeight {
        var f0 := Up(s.floorHeight);
        var q;
        if s.ceilingHeight > t.floorHeight {
          var floor := if s.floorHeight > t.floorHeight then Up(s.floorHeight) else Up(t.floorHeight);
          q := WallQuad(a, b, f0, floor);
        } else {
          q := WallQuad(a, b, f0, Up(s.ceilingHeight));
        }
        AddWall(i, q, LowerWallLayer, normalize);
        added := added + 1;
      }
    }

    /** One pass of the edge loop of sector i: ok is false, with nothing
        appended, when the edge's wall type or end points cannot be read;
        otherwise the edge's pieces are appended and count is the number of
        polygons they add. */
    method BuildEdge(m: LevelMap, i: int, e: int, normalize: Vec3 -> Vec3) returns (ok: bool, count: int)
      requires 0 <= i < |m.sectors| && 0 <= e < |m.sectors[i].vertexIndices|
      modifies this
      ensures ok == EdgeOk(m, m.sectors[i], e)
      ensures ok ==> lists == AddEdge(old(lists), i, EdgePieces(m, m.sectors[i], e), normalize)
      ensures ok ==> count == EdgePolygonCount(m, m.sectors[i], e)
      ensures !ok ==> lists == old(lists)
    {
      var s := m.sectors[i];
      var n := |s.vertexIndices|;
      if |s.wallTypes| == 0 {
        return false, 0;
      }
      var current, next := s.vertexIndices[e], s.vertexIndices[(e + 1) % n];
      var wall := s.wallTypes[(e + 1) % |s.wallTypes|];
      if !(0 <= current < |m.vertices|) || !(0 <= next < |m.vertices|) || (wall != SolidWall && !(0 <= wall < |m.sectors|)) {
        return false, 0;
      }
      ok := true;
      var a, b := m.vertices[current], m.vertices[next];
      if wall == SolidWall {
        AddWall(i, WallQuad(a, b, Up(s.floorHeight), Up(s.ceilingHeight)), WallLayer, normalize);
        count := 1;
      } else {
        var t := m.sectors[wall];
        var upper := AddUpper(i, s, t, a, b, normalize);
        var portal := AddOpening(i, s, t, wall, a, b, normalize);
        var lower := AddLower(i, s, t, a, b, normalize);
        count := upper + portal + lower;
      }
    }

    /** Appends a fan of sector i: its points, their texture coordinates and
        its triangles shifted past the points already there; then, when the
        fan has a triangle, a polygon over its triangles and the plane of the
        first one. Without a triangle the loader fails reading it, after the
        three appends. */
    method AddFan(i: int, verts: seq<Vec3>, uvs: seq<Vec3>, tri: seq<int>, normalize: Vec3 -> Vec3) returns (ok: bool)
      requires forall k :: 0 <= k < |tri| ==> 0 <= tri[k] < |verts|
      modifies this
      ensures ok == (|tri| >= 3)
      ensures ok ==> lists == AddFanPolygon(old(lists), i, verts, uvs, tri, normalize)
      ensures !ok ==> lists == old(lists).(vertices := old(lists).vertices + verts,
                                           textures := old(lists).textures + uvs,
                                           triangles := old(lists).triangles + Offset(|old(lists).vertices|, tri))
    {
      var baseFloor := |lists.vertices|;
      var floorStartIndex := |lists.triangles|;
      var e := 0;
      while e < |verts|
        invariant 0 <= e <= |verts|
        invariant lists == old(lists).(vertices := old(lists).vertices + verts[..e])
      {
        assert verts[..e + 1] == verts[..e] + [verts[e]];
        lists := lists.(vertices := lists.vertices + [verts[e]]);
        e := e + 1;
      }
      assert verts[..e] == verts;
      e := 0;
      while e < |uvs|
        invariant 0 <= e <= |uvs|
        invariant lists == old(lists).(vertices := old(lists).vertices + verts, textures := old(lists).textures + uvs[..e])
      {
        assert uvs[..e + 1] == uvs[..e] + [uvs[e]];
        lists := lists.(textures := lists.textures + [uvs[e]]);
        e := e + 1;
      }
      assert uvs[..e] == uvs;
      ghost var shifted := Offset(baseFloor, tri);
      e := 0;
      while e < |tri|
        invariant 0 <= e <= |tri|
        invariant lists == old(lists).(vertices := old(lists).vertices + verts, textures := old(lists).textures + uvs,
                                       triangles := old(lists).triangles + shifted[..e])
      {
        assert shifted[..e + 1] == shifted[..e] + [baseFloor + tri[e]];
        lists := lists.(triangles := lists.triangles + [baseFloor + tri[e]]);
        e := e + 1;
      }
      assert shifted[..e] == shifted;
      if |tri| < 3 {
        return false;
      }
      var f0, f1, f2 := verts[tri[0]], verts[tri[1]], verts[tri[2]];
      var f := normalize(Cross(Sub(f1, f0), Sub(f2, f0)));
      lists := lists.(polygons := lists.polygons + [PolygonMeta(-1, -1, floorStartIndex, |tri|, NoSector, i, i, i, |lists.planes|)]);
      lists := lists.(planes := lists.planes + [Plane(f, -Dot(f, f0))]);
      ok := true;
    }

    /** The edge loop's pass over edge e of sector i, after edges 0 .. e - 1
        were appended to base. */
    method BuildNextEdge(m: LevelMap, i: int, e: int, ghost base: Level, normalize: Vec3 -> Vec3) returns (ok: bool, count: int)
      requires 0 <= i < |m.sectors| && 0 <= e < |m.sectors[i].vertexIndices|
      requires forall k :: 0 <= k < e ==> EdgeOk(m, m.sectors[i], k)
      requires lists == AddEdges(base, i, EdgeLists(m, m.sectors[i], e), normalize)
      modifies this
      ensures ok == EdgeOk(m, m.sectors[i], e)
      ensures ok ==> lists == AddEdges(base, i, EdgeLists(m, m.sectors[i], e + 1), normalize)
      ensures ok ==> count == EdgePolygonCount(m, m.sectors[i], e)
    {
      ok, count := BuildEdge(m, i, e, normalize);
      if ok {
        EdgeListsSnoc(m, m.sectors[i], e);
        AddEdgesSnoc(base, i, EdgeLists(m, m.sectors[i], e), EdgePieces(m, m.sectors[i], e), normalize);
      }
    }

    /** The edge loop of sector i: ok is false when an edge cannot be built;
        otherwise every edge's pieces are appended in order and polygonCount
        is the number of polygons they add. */
    method BuildWalls(m: LevelMap, i: int, normalize: Vec3 -> Vec3) returns (ok: bool, polygonCount: int)
      requires 0 <= i < |m.sectors|
      modifies this
      ensures ok == forall e :: 0 <= e < |m.sectors[i].vertexIndices| ==> EdgeOk(m, m.sectors[i], e)
      ensures ok ==> lists == AddEdges(old(lists), i, EdgeLists(m, m.sectors[i], |m.sectors[i].vertexIndices|), normalize)
      ensures ok ==> polygonCount == WallPolygonCount(m, m.sectors[i], |m.sectors[i].vertexIndices|)
    {
      var s := m.sectors[i];
      polygonCount := 0;
      var e := 0;
      while e < |s.vertexIndices|
        invariant 0 <= e <= |s.vertexIndices|
        invariant forall k :: 0 <= k < e ==> EdgeOk(m, s, k)
        invariant lists == AddEdges(old(lists), i, EdgeLists(m, s, e), normalize)
        invariant polygonCount == WallPolygonCount(m, s, e)
      {
        var edgeOk, count := BuildNextEdge(m, i, e, old(lists), normalize);
        if !edgeOk {
          return false, polygonCount;
        }
        polygonCount := polygonCount + count;
        e := e + 1;
      }
      ok := true;
    }

    /** The floor and the ceiling fan of sector i, whose floor and ceiling
        differ: ok is false when one of them has no triangle. */
    method BuildFans(m: LevelMap, i: int, normalize: Vec3 -> Vec3) returns (ok: bool)
      requires 0 <= i < |m.sectors| && VerticesOk(m, m.sectors[i])
      requires m.sectors[i].floorHeight != m.sectors[i].ceilingHeight
      modifies this
      ensures ok == FanOk(m, m.sectors[i])
      ensures ok ==> lists == AddFans(old(lists), i, SectorFans(m, m.sectors[i]), normalize)
    {
      var s := m.sectors[i];
      var floorverts, ceilingverts, flooruvs, ceilinguvs := FanRings(m, s);
      var floortri := FanIndices(floorverts);
      var ceilingtri := FanIndices(ceilingverts);
      FanIndicesOk(floorverts);
      FanIndicesOk(ceilingverts);
      ok := AddFan(i, floorverts, flooruvs, floortri, normalize);
      if !ok {
        return;
      }
      ok := AddFan(i, ceilingverts, ceilinguvs, ceilingtri, normalize);
      if !ok {
        return;
      }
      AddTwoFans(old(lists), i, Fan(floorverts, flooruvs, floortri), Fan(ceilingverts, ceilinguvs, ceilingtri), normalize);
    }

    /** One pass of the sector loop: sector i's walls, then its fans when its
        floor and ceiling differ, then the sector's record with its polygon
        range starting at polygonStart. ok is false when an edge or a fan
        cannot be built. */
    method BuildSector(m: LevelMap, i: int, polygonStart: int, normalize: Vec3 -> Vec3) returns (ok: bool, polygonCount: int)
      requires 0 <= i < |m.sectors|
      modifies this
      ensures ok == SectorOk(m, m.sectors[i])
      ensures ok ==> lists == AddParts(old(lists), i, SectorPartsOf(m, i), polygonStart, normalize)
      ensures ok ==> polygonCount == SectorPolygonCount(m, m.sectors[i])
    {
      var s := m.sectors[i];
      ok, polygonCount := BuildWalls(m, i, normalize);
      if !ok {
        return;
      }
      EdgesGiveVertices(m, s);
      if s.floorHeight != s.ceilingHeight {
        ok := BuildFans(m, i, normalize);
        if !ok {
          return;
        }
        polygonCount := polygonCount + 2;
      }
      lists := lists.(sectors := lists.sectors + [SectorMeta(polygonStart, polygonCount, 0, 4, i)]);
    }

    /** The sector loop, with the running polygon start. ok is false when a
        sector cannot be built; otherwise the lists are BuildLevel of the map,
        and so well-formed with one sector record per map sector. */
    method BuildGeometry(m: LevelMap, normalize: Vec3 -> Vec3) returns (ok: bool)
      requires lists == EmptyLevel
      modifies this
      ensures ok == MapOk(m)
      ensures ok ==> lists == BuildLevel(m, normalize) && WellFormed(lists) && |lists.sectors| == |m.sectors|
    {
      var polygonStart := 0;
      var i := 0;
      while i < |m.sectors|
        invariant 0 <= i <= |m.sectors|
        invariant forall j {:trigger SectorOk(m, m.sectors[j])} :: 0 <= j < i ==> SectorOk(m, m.sectors[j])
        invariant lists == Assemble(PartsUpTo(m, i), normalize)
        invariant polygonStart == PolygonsIn(PartsUpTo(m, i))
      {
        var sectorOk, polygonCount := BuildSector(m, i, polygonStart, normalize);
        if !sectorOk {
          return false;
        }
        PartsUpToSnoc(m, i, normalize);
        polygonStart := polygonStart + polygonCount;
        i := i + 1;
      }
      BuildLevelWellFormed(m, normalize);
      ok := true;
    }
  }
}
