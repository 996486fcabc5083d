/**
 * What BuildGeometry makes of a level map, as functions: every sector's walls
 * (solid quads, the upper and lower quads around a portal and the portal's
 * edge loop), its floor and ceiling fans, one plane per polygon and one
 * polygon range per sector. The lemmas show that the tables are what the
 * visibility pipeline needs: every index in range, the sector ranges laid out
 * one after another over all polygons, and every fan triangle a kept corner
 * triple (0, e + 1, e + 2).
 */
module MapGeometry {
  import opened Geometry
  import opened Tables

  /** A vertex of the level file: a point of the map plane. */
  datatype MapVertex = MapVertex(x: real, y: real)

  /** A sector of the level file. Edge e runs from vertexIndices[e] to the next
      vertex of the loop; its wall type is wallTypes[(e + 1) % |wallTypes|]:
      -1 for a solid wall, otherwise the sector seen through the edge. */
  datatype MapSector = MapSector(
    floorHeight: real, ceilingHeight: real,
    vertexIndices: seq<int>, wallTypes: seq<int>)

  datatype LevelMap = LevelMap(vertices: seq<MapVertex>, sectors: seq<MapSector>)

  const SolidWall := -1

  /** Texture layers: solid and upper wall quads use layer 3, lower wall quads
      layer 2, floors layer 0 and ceilings layer 1. */
  const WallLayer: real := 3.0
  const LowerWallLayer: real := 2.0
  const FloorLayer: real := 0.0
  const CeilingLayer: real := 1.0

  /** Fan triangles with a side or an area below this are skipped. */
  const TinyNumber: real := 0.000001

  /** Map units to world units: x / 2 * 2.5 across, height / 8 * 2.5 up. */
  function Across(c: real): real { c / 2.0 * 2.5 }
  function Up(h: real): real { h / 8.0 * 2.5 }

  /** The world point above map vertex v at world height y: the map's y is the
      world x, the map's x the world z. */
  function Corner(v: MapVertex, y: real): Vec3 { Vec3(Across(v.y), y, Across(v.x)) }

  function SqrMagnitude(v: Vec3): real { Dot(v, v) }

  /** The plane through v0, v1, v2 (normal along (v1 - v0) x (v2 - v0), scaled
      by normalize); it passes through v0. */
  function FacePlane(v0: Vec3, v1: Vec3, v2: Vec3, normalize: Vec3 -> Vec3): (pl: Plane)
    ensures SignedDistance(pl, v0) == 0.0
  {
    var n := normalize(Cross(Sub(v1, v0), Sub(v2, v0)));
    Plane(n, -Dot(n, v0))
  }

  // ---------------------------------------------------------------- walls

  /** A wall quad: the bottom and top corners at the edge's first end, then the
      top and bottom corners at its second end. */
  datatype Quad = Quad(v0: Vec3, v1: Vec3, v2: Vec3, v3: Vec3)

  function WallQuad(a: MapVertex, b: MapVertex, bottom: real, top: real): Quad
  {
    Quad(Corner(a, bottom), Corner(a, top), Corner(b, top), Corner(b, bottom))
  }

  function QuadVertices(q: Quad): seq<Vec3> { [q.v0, q.v1, q.v2, q.v3] }

  /** The two triangles of a quad whose first vertex is entry bv. */
  function QuadTriangles(bv: int): seq<int> { [bv, bv + 1, bv + 2, bv, bv + 2, bv + 3] }

  /** The closed edge loop of a portal quad whose first vertex is entry bv. */
  function PortalLoop(bv: int): (loop: seq<int>)
    ensures |loop| == 8
    ensures forall j :: 0 <= j < 8 ==> loop[j] == bv + (j + 1) / 2 % 4
  {
    [bv, bv + 1, bv + 1, bv + 2, bv + 2, bv + 3, bv + 3, bv]
  }

  /** The texture coordinates of a wall point: its distances to the quad's
      left and top planes in texture units, on the wall layer. */
  function WallUv(left: Plane, top: Plane, v: Vec3, layer: real): Vec3
  {
    Vec3(SignedDistance(left, v) / 2.5, SignedDistance(top, v) / 2.5, layer)
  }

  /** The texture coordinates of a wall quad: the left plane is normal to
      v2 - v1 and the top plane to v1 - v0, both through v1, so the quad's
      upper first corner is the texture origin. */
  function WallTextures(q: Quad, layer: real, normalize: Vec3 -> Vec3): (uvs: seq<Vec3>)
    ensures |uvs| == 4 && uvs[1] == Vec3(0.0, 0.0, layer)
    ensures forall k :: 0 <= k < 4 ==> uvs[k].z == layer
  {
    var leftNormal := normalize(Sub(q.v2, q.v1));
    var left := Plane(leftNormal, -Dot(leftNormal, q.v1));
    var topNormal := normalize(Sub(q.v1, q.v0));
    var top := Plane(topNormal, -Dot(topNormal, q.v1));
    [WallUv(left, top, q.v0, layer), WallUv(left, top, q.v1, layer), WallUv(left, top, q.v2, layer), WallUv(left, top, q.v3, layer)]
  }

  /** What one wall edge contributes: an opaque quad textured on a layer, or a
      portal quad into sector target. */
  datatype Piece = Wall(quad: Quad, layer: real) | Portal(quad: Quad, target: int)

  predicate PieceOk(p: Piece, sectorCount: int)
  {
    p.Portal? ==> 0 <= p.target < sectorCount
  }

  /** What one edge contributes: a solid edge one floor-to-ceiling wall; an
      edge into another sector its upper wall, its portal and its lower wall,
      each where there is one. */
  datatype EdgeParts = Solid(wall: Piece) | Between(upper: Option<Piece>, portal: Option<Piece>, lower: Option<Piece>)

  predicate OptionOk(o: Option<Piece>, sectorCount: int)
  {
    o.Some? ==> PieceOk(o.value, sectorCount)
  }

  predicate EdgePartsOk(ed: EdgeParts, sectorCount: int)
  {
    match ed
    case Solid(p) => PieceOk(p, sectorCount)
    case Between(u, p, l) => OptionOk(u, sectorCount) && OptionOk(p, sectorCount) && OptionOk(l, sectorCount)
  }

  function OptionCount(o: Option<Piece>): int
  {
    if o.Some? then 1 else 0
  }

  /** The number of pieces of an edge. */
  function PieceCount(ed: EdgeParts): int
  {
    match ed
    case Solid(_) => 1
    case Between(u, p, l) => OptionCount(u) + OptionCount(p) + OptionCount(l)
  }

  /** The wall type of edge e. */
  function WallType(s: MapSector, e: int): int
    requires |s.wallTypes| > 0 && 0 <= e < |s.vertexIndices|
  {
    s.wallTypes[(e + 1) % |s.wallTypes|]
  }

  /** Edge e can be built: there is a wall type to read (the index is taken
      modulo the number of wall types), both its ends are map vertices, and a
      wall type other than -1 names a sector. */
  predicate EdgeOk(m: LevelMap, s: MapSector, e: int)
    requires 0 <= e < |s.vertexIndices|
  {
    && |s.wallTypes| > 0
    && 0 <= s.vertexIndices[e] < |m.vertices|
    && 0 <= s.vertexIndices[(e + 1) % |s.vertexIndices|] < |m.vertices|
    && (WallType(s, e) == SolidWall || 0 <= WallType(s, e) < |m.sectors|)
  }

  /** The upper wall of an edge of s into sector t, where s's ceiling is
      above t's: up to s's ceiling from t's ceiling, or from s's floor when
      that is higher. */
  function UpperPiece(s: MapSector, t: MapSector, a: MapVertex, b: MapVertex): Option<Piece>
  {
    if s.ceilingHeight > t.ceilingHeight then
      Some(Wall(WallQuad(a, b, if s.floorHeight < t.ceilingHeight then Up(t.ceilingHeight) else Up(s.floorHeight),
                         Up(s.ceilingHeight)), WallLayer))
    else None
  }

  /** The portal of an edge of s into sector w (whose sector is t), where t
      is open: from the higher floor to the lower ceiling of the two. */
  function PortalPiece(s: MapSector, t: MapSector, w: int, a: MapVertex, b: MapVertex): Option<Piece>
  {
    if t.ceilingHeight != t.floorHeight then
      Some(Portal(WallQuad(a, b, if s.floorHeight > t.floorHeight then Up(s.floorHeight) else Up(t.floorHeight),
                           if s.ceilingHeight > t.ceilingHeight then Up(t.ceilingHeight) else Up(s.ceilingHeight)), w))
    else None
  }

  /** The lower wall of an edge of s into sector t, where s's floor is below
      t's: up from s's floor to t's floor, or to s's ceiling when that is
      lower. */
  function LowerPiece(s: MapSector, t: MapSector, a: MapVertex, b: MapVertex): Option<Piece>
  {
    if s.floorHeight < t.floorHeight then
      Some(Wall(WallQuad(a, b, Up(s.floorHeight),
                         if s.ceilingHeight > t.floorHeight then Up(t.floorHeight) else Up(s.ceilingHeight)), LowerWallLayer))
    else None
  }

  /** The pieces of edge e, in the order they are appended. */
  function EdgePieces(m: LevelMap, s: MapSector, e: int): (ed: EdgeParts)
    requires 0 <= e < |s.vertexIndices| && EdgeOk(m, s, e)
    ensures EdgePartsOk(ed, |m.sectors|)
  {
    var a := m.vertices[s.vertexIndices[e]];
    var b := m.vertices[s.vertexIndices[(e + 1) % |s.vertexIndices|]];
    var w := WallType(s, e);
    if w == SolidWall then
      Solid(Wall(WallQuad(a, b, Up(s.floorHeight), Up(s.ceilingHeight)), WallLayer))
    else
      var t := m.sectors[w];
      Between(UpperPiece(s, t, a, b), PortalPiece(s, t, w, a, b), LowerPiece(s, t, a, b))
  }

  /** A solid edge is one floor-to-ceiling wall on the wall layer. An edge
      into sector t has a portal into t exactly when t is open; its upper
      piece is a wall on the wall layer, present exactly when s's ceiling is
      above t's, and its lower piece a wall on the lower-wall layer, present
      exactly when s's floor is below t's. The pieces are stacked: the upper
      wall starts no lower than the portal ends, and the lower wall ends no
      higher than the portal starts. */
  lemma EdgePiecesShape(m: LevelMap, s: MapSector, e: int)
    requires 0 <= e < |s.vertexIndices| && EdgeOk(m, s, e)
    ensures var ed := EdgePieces(m, s, e); var w := WallType(s, e);
      && (ed.Solid? <==> w == SolidWall)
      && (ed.Solid? ==> ed.wall.Wall? && ed.wall.layer == WallLayer
                          && ed.wall.quad.v0.y == Up(s.floorHeight) && ed.wall.quad.v1.y == Up(s.ceilingHeight))
      && (ed.Between? ==>
            var t := m.sectors[w];
            && (ed.portal.Some? <==> t.ceilingHeight != t.floorHeight)
            && (ed.portal.Some? ==> ed.portal.value.Portal? && ed.portal.value.target == w)
            && (ed.upper.Some? <==> s.ceilingHeight > t.ceilingHeight)
            && (ed.upper.Some? ==> ed.upper.value.Wall? && ed.upper.value.layer == WallLayer
                                     && ed.upper.value.quad.v1.y == Up(s.ceilingHeight))
            && (ed.lower.Some? <==> s.floorHeight < t.floorHeight)
            && (ed.lower.Some? ==> ed.lower.value.Wall? && ed.lower.value.layer == LowerWallLayer
                                     && ed.lower.value.quad.v0.y == Up(s.floorHeight))
            && (ed.upper.Some? && ed.portal.Some? ==> ed.portal.value.quad.v1.y <= ed.upper.value.quad.v0.y)
            && (ed.lower.Some? && ed.portal.Some? ==> ed.lower.value.quad.v1.y <= ed.portal.value.quad.v0.y))
  {
  }

  /** The polygons edge e adds to its sector's count: one for a solid wall;
      into sector t, one for the upper wall where s's ceiling is above t's,
      one for the portal where t is open and one for the lower wall where s's
      floor is below t's. */
  function EdgePolygonCount(m: LevelMap, s: MapSector, e: int): int
    requires 0 <= e < |s.vertexIndices| && EdgeOk(m, s, e)
  {
    var w := WallType(s, e);
    if w == SolidWall then 1
    else
      var t := m.sectors[w];
      (if s.ceilingHeight > t.ceilingHeight then 1 else 0)
      + (if t.ceilingHeight != t.floorHeight then 1 else 0)
      + (if s.floorHeight < t.floorHeight then 1 else 0)
  }

  /** The count the builder keeps for edge e is the number of its pieces. */
  lemma EdgePiecesCount(m: LevelMap, s: MapSector, e: int)
    requires 0 <= e < |s.vertexIndices| && EdgeOk(m, s, e)
    ensures PieceCount(EdgePieces(m, s, e)) == EdgePolygonCount(m, s, e)
  {
  }

  /** The polygons edges 0 .. k - 1 add to the sector's count. */
  function WallPolygonCount(m: LevelMap, s: MapSector, k: int): int
    requires 0 <= k <= |s.vertexIndices|
    requires forall e :: 0 <= e < k ==> EdgeOk(m, s, e)
  {
    if k == 0 then 0 else WallPolygonCount(m, s, k - 1) + EdgePolygonCount(m, s, k - 1)
  }

  /** The pieces of every edge in es are well formed. */
  predicate EdgeListsOk(es: seq<EdgeParts>, sectorCount: int)
  {
    forall e :: 0 <= e < |es| ==> EdgePartsOk(es[e], sectorCount)
  }

  /** The pieces of edges 0 .. k - 1 of sector s, edge by edge. */
  function EdgeLists(m: LevelMap, s: MapSector, k: int): (es: seq<EdgeParts>)
    requires 0 <= k <= |s.vertexIndices|
    requires forall e :: 0 <= e < k ==> EdgeOk(m, s, e)
    ensures |es| == k && EdgeListsOk(es, |m.sectors|)
  {
    seq(k, e requires 0 <= e < k && EdgeOk(m, s, e) => EdgePieces(m, s, e))
  }

  lemma EdgeListsSnoc(m: LevelMap, s: MapSector, e: int)
    requires 0 <= e < |s.vertexIndices|
    requires forall k :: 0 <= k <= e ==> EdgeOk(m, s, k)
    ensures EdgeLists(m, s, e + 1) == EdgeLists(m, s, e) + [EdgePieces(m, s, e)]
  {
  }

  /** The number of pieces of all the edges. */
  function PiecesIn(es: seq<EdgeParts>): int
  {
    if es == [] then 0 else PiecesIn(es[..|es| - 1]) + PieceCount(es[|es| - 1])
  }

  /** The pieces of edges 0 .. k - 1 are the polygons counted for them. */
  lemma {:induction false} EdgeListsCount(m: LevelMap, s: MapSector, k: int)
    requires 0 <= k <= |s.vertexIndices|
    requires forall e :: 0 <= e < k ==> EdgeOk(m, s, e)
    ensures PiecesIn(EdgeLists(m, s, k)) == WallPolygonCount(m, s, k)
  {
    if k > 0 {
      EdgeListsCount(m, s, k - 1);
      EdgePiecesCount(m, s, k - 1);
      assert EdgeLists(m, s, k)[..k - 1] == EdgeLists(m, s, k - 1);
    }
  }

  // ---------------------------------------------------------------- fans

  /** Every vertex index of the sector names a map vertex. */
  predicate VerticesOk(m: LevelMap, s: MapSector)
  {
    forall e :: 0 <= e < |s.vertexIndices| ==> 0 <= s.vertexIndices[e] < |m.vertices|
  }

  function Reverse<T>(xs: seq<T>): (r: seq<T>)
    ensures |r| == |xs| && forall k :: 0 <= k < |xs| ==> r[k] == xs[|xs| - 1 - k]
  {
    seq(|xs|, k requires 0 <= k < |xs| => xs[|xs| - 1 - k])
  }

  /** The sector's loop at height y. */
  function Ring(m: LevelMap, s: MapSector, y: real): (vs: seq<Vec3>)
    requires VerticesOk(m, s)
    ensures |vs| == |s.vertexIndices|
  {
    seq(|s.vertexIndices|, e requires 0 <= e < |s.vertexIndices| => Corner(m.vertices[s.vertexIndices[e]], y))
  }

  /** Planar texture coordinates of the sector's loop on a layer: world z and
      minus world x, in texture units. */
  function RingUvs(m: LevelMap, s: MapSector, layer: real): (uvs: seq<Vec3>)
    requires VerticesOk(m, s)
    ensures |uvs| == |s.vertexIndices|
  {
    seq(|s.vertexIndices|, e requires 0 <= e < |s.vertexIndices| =>
      var c := Corner(m.vertices[s.vertexIndices[e]], 0.0);
      Vec3(c.x / 2.5, c.z / 2.5 * -1.0, layer))
  }

  /** The floor runs along the loop, the ceiling against it (so both face into the sector). */
  function FloorVerts(m: LevelMap, s: MapSector): seq<Vec3>
    requires VerticesOk(m, s)
  {
    Ring(m, s, Up(s.floorHeight))
  }

  function CeilingVerts(m: LevelMap, s: MapSector): seq<Vec3>
    requires VerticesOk(m, s)
  {
    Reverse(Ring(m, s, Up(s.ceilingHeight)))
  }

  function FloorUvs(m: LevelMap, s: MapSector): seq<Vec3>
    requires VerticesOk(m, s)
  {
    RingUvs(m, s, FloorLayer)
  }

  function CeilingUvs(m: LevelMap, s: MapSector): seq<Vec3>
    requires VerticesOk(m, s)
  {
    Reverse(RingUvs(m, s, CeilingLayer))
  }

  /** Number of corner triples of the fan over verts: |verts| - 2, none for
      fewer than three points. */
  function FanSize(verts: seq<Vec3>): nat
  {
    if |verts| >= 2 then |verts| - 2 else 0
  }

  /** Triangle (0, e + 1, e + 2) of the fan is skipped: one of its sides, or
      its area, is below the threshold. */
  predicate Degenerate(verts: seq<Vec3>, e: int)
    requires 0 <= e && e + 2 < |verts|
  {
    var e0 := Sub(verts[e + 1], verts[0]);
    var e1 := Sub(verts[e + 2], verts[e + 1]);
    var e2 := Sub(verts[e + 2], verts[0]);
    SqrMagnitude(e0) < TinyNumber || SqrMagnitude(e1) < TinyNumber || SqrMagnitude(e2) < TinyNumber
    || SqrMagnitude(Cross(e0, e2)) < TinyNumber
  }

  /** The corner pairs e < k the fan keeps, in increasing order. */
  function FanKept(verts: seq<Vec3>, k: int): seq<int>
    requires 0 <= k <= FanSize(verts)
  {
    if k == 0 then [] else FanKept(verts, k - 1) + (if Degenerate(verts, k - 1) then [] else [k - 1])
  }

  /** The triangles (0, e + 1, e + 2) of the corner pairs es, flattened. */
  function Triples(es: seq<int>): seq<int>
  {
    if es == [] then [] else Triples(es[..|es| - 1]) + [0, es[|es| - 1] + 1, es[|es| - 1] + 2]
  }

  /** The index list of the fan triangulation of verts (relative to verts). */
  function FanTriangles(verts: seq<Vec3>): seq<int>
  {
    Triples(FanKept(verts, FanSize(verts)))
  }

  /** Appending one kept pair appends its triangle. */
  lemma TriplesSnoc(es: seq<int>, e: int)
    ensures Triples(es + [e]) == Triples(es) + [0, e + 1, e + 2]
  {
    assert (es + [e])[..|es|] == es;
  }

  /** The fan keeps exactly the non-degenerate corner pairs, in increasing order. */
  lemma {:induction false} FanKeptMembers(verts: seq<Vec3>, k: int)
    requires 0 <= k <= FanSize(verts)
    ensures forall e :: e in FanKept(verts, k) <==> 0 <= e < k && !Degenerate(verts, e)
    ensures forall a, b :: 0 <= a < b < |FanKept(verts, k)| ==> FanKept(verts, k)[a] < FanKept(verts, k)[b]
  {
    if k > 0 {
      var init := FanKept(verts, k - 1);
      var es := FanKept(verts, k);
      FanKeptMembers(verts, k - 1);
      assert es == init + (if Degenerate(verts, k - 1) then [] else [k - 1]);
      forall e
        ensures e in es <==> 0 <= e < k && !Degenerate(verts, e)
      {
        assert e in es <==> e in init || (!Degenerate(verts, k - 1) && e == k - 1);
      }
      forall a, b | 0 <= a < b < |es|
        ensures es[a] < es[b]
      {
        assert es[a] == init[a] && init[a] in init;
        if b < |init| {
          assert es[b] == init[b];
        }
      }
    }
  }

  /** Triangle j of Triples(es) is (0, es[j] + 1, es[j] + 2). */
  lemma {:induction false} TriplesShape(es: seq<int>)
    ensures |Triples(es)| == 3 * |es|
    ensures forall j :: 0 <= j < |es| ==>
              Triples(es)[3 * j] == 0 && Triples(es)[3 * j + 1] == es[j] + 1 && Triples(es)[3 * j + 2] == es[j] + 2
  {
    if es != [] {
      var init := es[..|es| - 1];
      TriplesShape(init);
      forall j | 0 <= j < |es|
        ensures Triples(es)[3 * j] == 0 && Triples(es)[3 * j + 1] == es[j] + 1 && Triples(es)[3 * j + 2] == es[j] + 2
      {
        if j < |init| {
          assert es[j] == init[j];
        }
      }
    }
  }

  /** Index k of a list of n triples lies in triple k / 3. */
  lemma TripleOf(k: int, n: int) returns (j: int)
    requires 0 <= k < 3 * n
    ensures 0 <= j < n && (k == 3 * j || k == 3 * j + 1 || k == 3 * j + 2)
  {
    j := k / 3;
  }

  lemma WholeTriangles(n: int)
    ensures (3 * n) % 3 == 0
  {
  }

  /** The fan's index list holds whole triangles over the points of the ring. */
  lemma FanIndicesOk(verts: seq<Vec3>)
    ensures |FanTriangles(verts)| % 3 == 0
    ensures forall k :: 0 <= k < |FanTriangles(verts)| ==> 0 <= FanTriangles(verts)[k] < |verts|
  {
    FanShape(verts);
  }

  /** The fan triangulation: whole triangles, every index a point of the ring,
      and triangle j is (0, e + 1, e + 2) for the j-th kept pair e; exactly the
      non-degenerate pairs are kept. */
  lemma FanShape(verts: seq<Vec3>)
    ensures var tri := FanTriangles(verts); var es := FanKept(verts, FanSize(verts));
      && |tri| == 3 * |es| && |tri| % 3 == 0
      && (forall k :: 0 <= k < |tri| ==> 0 <= tri[k] < |verts|)
      && (forall j :: 0 <= j < |es| ==> tri[3 * j] == 0 && tri[3 * j + 1] == es[j] + 1 && tri[3 * j + 2] == es[j] + 2)
      && (forall e :: e in es <==> 0 <= e < FanSize(verts) && !Degenerate(verts, e))
  {
    var es := FanKept(verts, FanSize(verts));
    var tri := FanTriangles(verts);
    FanKeptMembers(verts, FanSize(verts));
    TriplesShape(es);
    WholeTriangles(|es|);
    forall k | 0 <= k < |tri|
      ensures 0 <= tri[k] < |verts|
    {
      var j := TripleOf(k, |es|);
      assert es[j] in es;
    }
  }

  // ---------------------------------------------------------------- tables

  const EmptyLevel := Level([], [], [], [], [], [], [])

  /** Appends one wall piece: its four vertices and textures, then an opaque
      polygon with two triangles, or a portal polygon with its closed edge
      loop, and the polygon's plane. */
  function AddPiece(t: Level, i: int, p: Piece, normalize: Vec3 -> Vec3): Level
  {
    var bv := |t.vertices|;
    var q := p.quad;
    t.(vertices := t.vertices + QuadVertices(q),
       textures := t.textures + (if p.Wall? then WallTextures(q, p.layer, normalize) else [Zero, Zero, Zero, Zero]),
       triangles := if p.Wall? then t.triangles + QuadTriangles(bv) else t.triangles,
       edges := if p.Wall? then t.edges else t.edges + PortalLoop(bv),
       polygons := t.polygons + [if p.Wall? then PolygonMeta(-1, -1, |t.triangles|, 6, NoSector, i, i, i, |t.planes|)
                                 else PolygonMeta(|t.edges|, 8, -1, -1, p.target, i, -1, -1, |t.planes|)],
       planes := t.planes + [FacePlane(q.v0, q.v1, q.v2, normalize)])
  }

  /** Appends a piece where there is one. */
  function AddOption(t: Level, i: int, o: Option<Piece>, normalize: Vec3 -> Vec3): Level
  {
    match o
    case None => t
    case Some(p) => AddPiece(t, i, p, normalize)
  }

  /** Appends the pieces of an edge in order: upper wall, portal, lower wall. */
  function AddEdge(t: Level, i: int, ed: EdgeParts, normalize: Vec3 -> Vec3): Level
  {
    match ed
    case Solid(p) => AddPiece(t, i, p, normalize)
    case Between(u, p, l) => AddOption(AddOption(AddOption(t, i, u, normalize), i, p, normalize), i, l, normalize)
  }

  /** Appends the pieces of the edges in order. */
  function AddEdges(t: Level, i: int, es: seq<EdgeParts>, normalize: Vec3 -> Vec3): Level
  {
    if es == [] then t else AddEdge(AddEdges(t, i, es[..|es| - 1], normalize), i, es[|es| - 1], normalize)
  }

  lemma AddEdgesSnoc(t: Level, i: int, es: seq<EdgeParts>, ed: EdgeParts, normalize: Vec3 -> Vec3)
    ensures AddEdges(t, i, es + [ed], normalize) == AddEdge(AddEdges(t, i, es, normalize), i, ed, normalize)
  {
    assert (es + [ed])[..|es|] == es;
  }

  /** tri shifted to start at vertex base. */
  function Offset(base: int, tri: seq<int>): (r: seq<int>)
    ensures |r| == |tri| && forall k :: 0 <= k < |tri| ==> r[k] == base + tri[k]
  {
    seq(|tri|, k requires 0 <= k < |tri| => base + tri[k])
  }

  /** Appends a fan polygon: its points and texture coordinates, its triangles
      shifted past the existing vertices, an opaque polygon over them, and the
      plane of its first triangle. */
  function AddFanPolygon(t: Level, i: int, verts: seq<Vec3>, uvs: seq<Vec3>, tri: seq<int>,
                         normalize: Vec3 -> Vec3): Level
    requires |tri| >= 3 && forall k :: 0 <= k < |tri| ==> 0 <= tri[k] < |verts|
  {
    t.(vertices := t.vertices + verts,
       textures := t.textures + uvs,
       triangles := t.triangles + Offset(|t.vertices|, tri),
       polygons := t.polygons + [PolygonMeta(-1, -1, |t.triangles|, |tri|, NoSector, i, i, i, |t.planes|)],
       planes := t.planes + [FacePlane(verts[tri[0]], verts[tri[1]], verts[tri[2]], normalize)])
  }

  /** Sector s can be built: every edge can, and a sector with a floor below
      its ceiling has at least one floor and one ceiling triangle. */
  predicate SectorOk(m: LevelMap, s: MapSector)
  {
    && (forall e :: 0 <= e < |s.vertexIndices| ==> EdgeOk(m, s, e))
    && (s.floorHeight != s.ceilingHeight ==>
          VerticesOk(m, s) && FanOk(m, s))
  }

  predicate FanOk(m: LevelMap, s: MapSector)
    requires VerticesOk(m, s)
  {
    |FanTriangles(FloorVerts(m, s))| >= 3 && |FanTriangles(CeilingVerts(m, s))| >= 3
  }

  predicate MapOk(m: LevelMap)
  {
    forall i {:trigger SectorOk(m, m.sectors[i])} :: 0 <= i < |m.sectors| ==> SectorOk(m, m.sectors[i])
  }

  lemma EdgesGiveVertices(m: LevelMap, s: MapSector)
    requires forall e :: 0 <= e < |s.vertexIndices| ==> EdgeOk(m, s, e)
    ensures VerticesOk(m, s)
  {
    forall e | 0 <= e < |s.vertexIndices|
      ensures 0 <= s.vertexIndices[e] < |m.vertices|
    {
      assert EdgeOk(m, s, e);
    }
  }

  /** The polygons of sector s: its wall pieces, then a floor and a ceiling. */
  function SectorPolygonCount(m: LevelMap, s: MapSector): int
    requires SectorOk(m, s)
  {
    WallPolygonCount(m, s, |s.vertexIndices|) + (if s.floorHeight != s.ceilingHeight then 2 else 0)
  }

  /** A fan polygon to append: its points, their texture coordinates, and
      triangle indices into the points. */
  datatype Fan = Fan(verts: seq<Vec3>, uvs: seq<Vec3>, tri: seq<int>)

  /** A texture coordinate per point, and whole triangles, at least one, over the points. */
  predicate FanShapeOk(f: Fan)
  {
    && |f.uvs| == |f.verts|
    && |f.tri| >= 3 && |f.tri| % 3 == 0
    && (forall k :: 0 <= k < |f.tri| ==> 0 <= f.tri[k] < |f.verts|)
  }

  predicate FansOk(fs: seq<Fan>)
  {
    forall k :: 0 <= k < |fs| ==> FanShapeOk(fs[k])
  }

  /** What one sector contributes, in order: the wall pieces of each of its
      edges, then its fans. */
  datatype SectorParts = SectorParts(edges: seq<EdgeParts>, fans: seq<Fan>)

  predicate PartsOk(p: SectorParts, sectorCount: int)
  {
    EdgeListsOk(p.edges, sectorCount) && FansOk(p.fans)
  }

  /** One polygon per part. */
  function PartsCount(p: SectorParts): int
  {
    PiecesIn(p.edges) + |p.fans|
  }

  /** The floor fan and the ceiling fan of sector s, when its floor and ceiling differ. */
  function SectorFans(m: LevelMap, s: MapSector): (fs: seq<Fan>)
    requires VerticesOk(m, s) && (s.floorHeight != s.ceilingHeight ==> FanOk(m, s))
    ensures FansOk(fs) && |fs| == (if s.floorHeight != s.ceilingHeight then 2 else 0)
  {
    if s.floorHeight == s.ceilingHeight then []
    else
      FanIndicesOk(FloorVerts(m, s));
      FanIndicesOk(CeilingVerts(m, s));
      [Fan(FloorVerts(m, s), FloorUvs(m, s), FanTriangles(FloorVerts(m, s))),
       Fan(CeilingVerts(m, s), CeilingUvs(m, s), FanTriangles(CeilingVerts(m, s)))]
  }

  /** The parts of sector i: the pieces of its edges in order, then its fans.
      They make as many polygons as the builder counts for the sector. */
  function SectorPartsOf(m: LevelMap, i: int): (p: SectorParts)
    requires 0 <= i < |m.sectors| && SectorOk(m, m.sectors[i])
    ensures PartsOk(p, |m.sectors|) && PartsCount(p) == SectorPolygonCount(m, m.sectors[i])
  {
    var s := m.sectors[i];
    EdgesGiveVertices(m, s);
    EdgeListsCount(m, s, |s.vertexIndices|);
    SectorParts(EdgeLists(m, s, |s.vertexIndices|), SectorFans(m, s))
  }

  /** The parts of sectors 0 .. k - 1. */
  function PartsUpTo(m: LevelMap, k: int): (ps: seq<SectorParts>)
    requires 0 <= k <= |m.sectors| && forall j {:trigger SectorOk(m, m.sectors[j])} :: 0 <= j < k ==> SectorOk(m, m.sectors[j])
    ensures |ps| == k && AllFansOk(ps) && forall j :: 0 <= j < k ==> EdgeListsOk(ps[j].edges, |m.sectors|)
  {
    seq(k, j requires 0 <= j < k && SectorOk(m, m.sectors[j]) => SectorPartsOf(m, j))
  }

  predicate AllFansOk(ps: seq<SectorParts>)
  {
    forall j :: 0 <= j < |ps| ==> FansOk(ps[j].fans)
  }

  function AddFans(t: Level, i: int, fs: seq<Fan>, normalize: Vec3 -> Vec3): Level
    requires FansOk(fs)
  {
    if fs == [] then t
    else
      var f := fs[|fs| - 1];
      AddFanPolygon(AddFans(t, i, fs[..|fs| - 1], normalize), i, f.verts, f.uvs, f.tri, normalize)
  }

  /** Sector i's parts appended to t, and the sector closed with its polygon
      range starting at polygonStart. */
  function AddParts(t: Level, i: int, p: SectorParts, polygonStart: int, normalize: Vec3 -> Vec3): Level
    requires FansOk(p.fans)
  {
    var body := AddFans(AddEdges(t, i, p.edges, normalize), i, p.fans, normalize);
    body.(sectors := body.sectors + [SectorMeta(polygonStart, PartsCount(p), 0, 4, i)])
  }

  /** The running polygon start: the polygons of the parts ps. */
  function PolygonsIn(ps: seq<SectorParts>): int
  {
    if ps == [] then 0 else PolygonsIn(ps[..|ps| - 1]) + PartsCount(ps[|ps| - 1])
  }

  /** The tables after the parts ps, one sector each, in order. */
  function Assemble(ps: seq<SectorParts>, normalize: Vec3 -> Vec3): Level
    requires AllFansOk(ps)
  {
    if ps == [] then EmptyLevel
    else
      var init := ps[..|ps| - 1];
      AddParts(Assemble(init, normalize), |ps| - 1, ps[|ps| - 1], PolygonsIn(init), normalize)
  }

  function BuildLevel(m: LevelMap, normalize: Vec3 -> Vec3): Level
    requires MapOk(m)
  {
    Assemble(PartsUpTo(m, |m.sectors|), normalize)
  }

  /** Appending two fans is appending one after the other. */
  lemma AddTwoFans(t: Level, i: int, f: Fan, g: Fan, normalize: Vec3 -> Vec3)
    requires FanShapeOk(f) && FanShapeOk(g)
    ensures AddFans(t, i, [f, g], normalize)
              == AddFanPolygon(AddFanPolygon(t, i, f.verts, f.uvs, f.tri, normalize), i, g.verts, g.uvs, g.tri, normalize)
  {
    assert [f, g][..1] == [f] && [f, g][1] == g;
    assert [f][..0] == [] && [f][0] == f;
    assert FansOk([f]);
    assert AddFans(t, i, [f], normalize) == AddFanPolygon(t, i, f.verts, f.uvs, f.tri, normalize);
  }

  /** One sector more: the tables and the running polygon start after sectors
      0 .. k are those after sectors 0 .. k - 1 with sector k's parts. */
  lemma PartsUpToSnoc(m: LevelMap, k: int, normalize: Vec3 -> Vec3)
    requires 0 <= k < |m.sectors| && forall j {:trigger SectorOk(m, m.sectors[j])} :: 0 <= j <= k ==> SectorOk(m, m.sectors[j])
    ensures Assemble(PartsUpTo(m, k + 1), normalize)
              == AddParts(Assemble(PartsUpTo(m, k), normalize), k, SectorPartsOf(m, k), PolygonsIn(PartsUpTo(m, k)), normalize)
    ensures PolygonsIn(PartsUpTo(m, k + 1)) == PolygonsIn(PartsUpTo(m, k)) + SectorPolygonCount(m, m.sectors[k])
  {
    var ps, init := PartsUpTo(m, k + 1), PartsUpTo(m, k);
    assert ps[..k] == init;
    assert ps[k] == SectorPartsOf(m, k);
  }

  // ---------------------------------------------------------------- invariants

  /** Polygon k: its plane is plane k; an opaque polygon's triangle range and a
      portal's edge range lie in the tables, and a portal leads to one of the
      map's sectors. */
  predicate PolygonBuilt(t: Level, k: int, sectorCount: int)
    requires 0 <= k < |t.polygons|
  {
    var p := t.polygons[k];
    && p.plane == k
    && (p.connectedSectorId == NoSector ==> TriangleRangeOk(t, p))
    && (p.connectedSectorId != NoSector ==> 0 <= p.connectedSectorId < sectorCount && EdgeRangeOk(t, p)
                                             && LoopChained(t.edges, p.edgeStartIndex, p.edgeCount))
  }

  /** The index tables between two appends. */
  predicate IndicesBuilt(t: Level, sectorCount: int)
  {
    && |t.textures| == |t.vertices|
    && (forall k :: 0 <= k < |t.triangles| ==> 0 <= t.triangles[k] < |t.vertices|)
    && (forall k :: 0 <= k < |t.edges| ==> 0 <= t.edges[k] < |t.vertices|)
    && |t.planes| == |t.polygons|
    && (forall k :: 0 <= k < |t.polygons| ==> PolygonBuilt(t, k, sectorCount))
  }

  /** End of the polygon range of the last sector. */
  function RangeEnd(ss: seq<SectorMeta>): int
  {
    if ss == [] then 0 else ss[|ss| - 1].polygonStartIndex + ss[|ss| - 1].polygonCount
  }

  /** Sector k is map sector k; its polygons follow those of sector k - 1 and
      all belong to it; its frustum is plane range 0 .. 3. */
  predicate SectorLaidOut(t: Level, k: int)
    requires 0 <= k < |t.sectors|
  {
    var s := t.sectors[k];
    && s.sectorId == k && s.planeStartIndex == 0 && s.planeCount == 4
    && 0 <= s.polygonStartIndex && 0 <= s.polygonCount
    && s.polygonStartIndex + s.polygonCount <= |t.polygons|
    && s.polygonStartIndex == (if k == 0 then 0 else t.sectors[k - 1].polygonStartIndex + t.sectors[k - 1].polygonCount)
    && (forall j :: s.polygonStartIndex <= j < s.polygonStartIndex + s.polygonCount ==> t.polygons[j].sectorId == k)
  }

  predicate SectorsLaidOut(t: Level)
  {
    && (forall k :: 0 <= k < |t.sectors| ==> SectorLaidOut(t, k))
    && 0 <= RangeEnd(t.sectors) <= |t.polygons|
  }

  /** The tables while sector i is being built: indices in range, sectors
      0 .. i - 1 laid out, and every polygon past them belongs to sector i. */
  predicate Building(t: Level, i: int, sectorCount: int)
  {
    && IndicesBuilt(t, sectorCount)
    && |t.sectors| == i
    && SectorsLaidOut(t)
    && (forall j :: RangeEnd(t.sectors) <= j < |t.polygons| ==> t.polygons[j].sectorId == i)
  }

  lemma AddPieceBuilding(t: Level, i: int, p: Piece, sectorCount: int, normalize: Vec3 -> Vec3)
    requires Building(t, i, sectorCount) && PieceOk(p, sectorCount)
    ensures var t' := AddPiece(t, i, p, normalize);
      Building(t', i, sectorCount) && |t'.polygons| == |t.polygons| + 1 && t'.sectors == t.sectors
  {
    var t' := AddPiece(t, i, p, normalize);
    var bv := |t.vertices|;
    assert |t'.vertices| == bv + 4;
    assert forall k :: 0 <= k < |t.polygons| ==> t'.polygons[k] == t.polygons[k];
    forall k | 0 <= k < |t'.polygons|
      ensures PolygonBuilt(t', k, sectorCount)
    {
      if k < |t.polygons| {
        assert PolygonBuilt(t, k, sectorCount);
        if p.Portal? && t.polygons[k].connectedSectorId != NoSector {
          LoopChainedGrows(t.edges, PortalLoop(bv), t.polygons[k].edgeStartIndex, t.polygons[k].edgeCount);
        }
      } else if p.Portal? {
        PortalLoopChained(t.edges, bv);
      }
    }
    forall k | 0 <= k < |t'.triangles|
      ensures 0 <= t'.triangles[k] < |t'.vertices|
    {
      if k >= |t.triangles| {
        assert p.Wall? && t'.triangles[k] == QuadTriangles(bv)[k - |t.triangles|];
      }
    }
    forall k | 0 <= k < |t'.edges|
      ensures 0 <= t'.edges[k] < |t'.vertices|
    {
      if k >= |t.edges| {
        assert p.Portal? && t'.edges[k] == PortalLoop(bv)[k - |t.edges|];
      }
    }
    forall k | 0 <= k < |t'.sectors|
      ensures SectorLaidOut(t', k)
    {
      assert SectorLaidOut(t, k);
    }
  }

  /** The loop of a portal quad is a closed chain: edge k runs from corner k
      to corner k + 1, and the last one back to the first corner. */
  lemma PortalLoopChained(edges: seq<int>, bv: int)
    ensures LoopChained(edges + PortalLoop(bv), |edges|, 8)
  {
    var all := edges + PortalLoop(bv);
    forall k | 0 <= k < 4
      ensures EdgeEnd(all, |edges|, k) == EdgeStart(all, |edges|, (k + 1) % 4)
    {
      assert EdgeEnd(all, |edges|, k) == PortalLoop(bv)[2 * k + 1];
      assert EdgeStart(all, |edges|, (k + 1) % 4) == PortalLoop(bv)[2 * ((k + 1) % 4)];
    }
  }

  /** Appending to the edge table keeps a chained range chained. */
  lemma LoopChainedGrows(edges: seq<int>, more: seq<int>, start: int, count: int)
    requires LoopChained(edges, start, count)
    ensures LoopChained(edges + more, start, count)
  {
    forall k | 0 <= k < count / 2
      ensures EdgeEnd(edges + more, start, k) == EdgeStart(edges + more, start, (k + 1) % (count / 2))
    {
      assert EdgeEnd(edges, start, k) == EdgeStart(edges, start, (k + 1) % (count / 2));
    }
  }

  lemma AddOptionBuilding(t: Level, i: int, o: Option<Piece>, sectorCount: int, normalize: Vec3 -> Vec3)
    requires Building(t, i, sectorCount) && OptionOk(o, sectorCount)
    ensures var t' := AddOption(t, i, o, normalize);
      Building(t', i, sectorCount) && |t'.polygons| == |t.polygons| + OptionCount(o) && t'.sectors == t.sectors
  {
    if o.Some? {
      AddPieceBuilding(t, i, o.value, sectorCount, normalize);
    }
  }

  lemma AddEdgeBuilding(t: Level, i: int, ed: EdgeParts, sectorCount: int, normalize: Vec3 -> Vec3)
    requires Building(t, i, sectorCount) && EdgePartsOk(ed, sectorCount)
    ensures var t' := AddEdge(t, i, ed, normalize);
      Building(t', i, sectorCount) && |t'.polygons| == |t.polygons| + PieceCount(ed) && t'.sectors == t.sectors
  {
    match ed
    case Solid(p) =>
      AddPieceBuilding(t, i, p, sectorCount, normalize);
    case Between(u, p, l) =>
      AddOptionBuilding(t, i, u, sectorCount, normalize);
      var t1 := AddOption(t, i, u, normalize);
      AddOptionBuilding(t1, i, p, sectorCount, normalize);
      AddOptionBuilding(AddOption(t1, i, p, normalize), i, l, sectorCount, normalize);
  }

  lemma {:induction false} AddEdgesBuilding(t: Level, i: int, es: seq<EdgeParts>, sectorCount: int, normalize: Vec3 -> Vec3)
    requires Building(t, i, sectorCount) && EdgeListsOk(es, sectorCount)
    ensures var t' := AddEdges(t, i, es, normalize);
      Building(t', i, sectorCount) && |t'.polygons| == |t.polygons| + PiecesIn(es) && t'.sectors == t.sectors
  {
    if es != [] {
      var init := es[..|es| - 1];
      AddEdgesBuilding(t, i, init, sectorCount, normalize);
      AddEdgeBuilding(AddEdges(t, i, init, normalize), i, es[|es| - 1], sectorCount, normalize);
    }
  }

  lemma AddFanBuilding(t: Level, i: int, verts: seq<Vec3>, uvs: seq<Vec3>, tri: seq<int>,
                       sectorCount: int, normalize: Vec3 -> Vec3)
    requires Building(t, i, sectorCount) && |uvs| == |verts|
    requires |tri| >= 3 && |tri| % 3 == 0 && forall k :: 0 <= k < |tri| ==> 0 <= tri[k] < |verts|
    ensures var t' := AddFanPolygon(t, i, verts, uvs, tri, normalize);
      Building(t', i, sectorCount) && |t'.polygons| == |t.polygons| + 1 && t'.sectors == t.sectors
  {
    var t' := AddFanPolygon(t, i, verts, uvs, tri, normalize);
    assert forall k :: 0 <= k < |t.polygons| ==> t'.polygons[k] == t.polygons[k];
    forall k | 0 <= k < |t'.polygons|
      ensures PolygonBuilt(t', k, sectorCount)
    {
      if k < |t.polygons| {
        assert PolygonBuilt(t, k, sectorCount);
      }
    }
    forall k | 0 <= k < |t'.triangles|
      ensures 0 <= t'.triangles[k] < |t'.vertices|
    {
      if k >= |t.triangles| {
        assert t'.triangles[k] == |t.vertices| + tri[k - |t.triangles|];
      }
    }
    forall k | 0 <= k < |t'.sectors|
      ensures SectorLaidOut(t', k)
    {
      assert SectorLaidOut(t, k);
    }
  }

  /** Closing sector i: its range is the polygons appended since the last one. */
  lemma CloseSector(t: Level, i: int, sectorCount: int)
    requires Building(t, i, sectorCount)
    ensures var t' := t.(sectors := t.sectors + [SectorMeta(RangeEnd(t.sectors), |t.polygons| - RangeEnd(t.sectors), 0, 4, i)]);
      Building(t', i + 1, sectorCount) && RangeEnd(t'.sectors) == |t'.polygons|
  {
    var t' := t.(sectors := t.sectors + [SectorMeta(RangeEnd(t.sectors), |t.polygons| - RangeEnd(t.sectors), 0, 4, i)]);
    forall k | 0 <= k < |t'.polygons|
      ensures PolygonBuilt(t', k, sectorCount)
    {
      assert PolygonBuilt(t, k, sectorCount);
    }
    forall k | 0 <= k < |t'.sectors|
      ensures SectorLaidOut(t', k)
    {
      if k < |t.sectors| {
        assert SectorLaidOut(t, k);
      }
    }
  }

  lemma {:induction false} AddFansBuilding(t: Level, i: int, fs: seq<Fan>, sectorCount: int, normalize: Vec3 -> Vec3)
    requires Building(t, i, sectorCount) && FansOk(fs)
    ensures var t' := AddFans(t, i, fs, normalize);
      Building(t', i, sectorCount) && |t'.polygons| == |t.polygons| + |fs| && t'.sectors == t.sectors
  {
    if fs != [] {
      var f := fs[|fs| - 1];
      AddFansBuilding(t, i, fs[..|fs| - 1], sectorCount, normalize);
      assert FanShapeOk(f);
      AddFanBuilding(AddFans(t, i, fs[..|fs| - 1], normalize), i, f.verts, f.uvs, f.tri, sectorCount, normalize);
    }
  }

  /** Sector i's pieces and fans appended to t. */
  lemma PartsBodyBuilding(t: Level, i: int, p: SectorParts, sectorCount: int, normalize: Vec3 -> Vec3)
    requires Building(t, i, sectorCount) && PartsOk(p, sectorCount)
    ensures var b := AddFans(AddEdges(t, i, p.edges, normalize), i, p.fans, normalize);
      Building(b, i, sectorCount) && |b.polygons| == |t.polygons| + PartsCount(p) && b.sectors == t.sectors
  {
    AddEdgesBuilding(t, i, p.edges, sectorCount, normalize);
    AddFansBuilding(AddEdges(t, i, p.edges, normalize), i, p.fans, sectorCount, normalize);
  }

  /** Appending sector i's parts to tables closed up to sector i - 1. */
  lemma PartsBuilding(t: Level, i: int, p: SectorParts, sectorCount: int, normalize: Vec3 -> Vec3)
    requires Building(t, i, sectorCount) && RangeEnd(t.sectors) == |t.polygons| && PartsOk(p, sectorCount)
    ensures var t' := AddParts(t, i, p, |t.polygons|, normalize);
      && Building(t', i + 1, sectorCount) && RangeEnd(t'.sectors) == |t'.polygons|
      && |t'.polygons| == |t.polygons| + PartsCount(p)
  {
    PartsBodyBuilding(t, i, p, sectorCount, normalize);
    CloseSector(AddFans(AddEdges(t, i, p.edges, normalize), i, p.fans, normalize), i, sectorCount);
  }

  /** Assembling parts leaves one closed, laid-out sector per part, and the
      running polygon start is the number of polygons built. */
  lemma {:induction false} AssembleBuilding(ps: seq<SectorParts>, sectorCount: int, t: Level, normalize: Vec3 -> Vec3)
    requires AllFansOk(ps) && forall j :: 0 <= j < |ps| ==> EdgeListsOk(ps[j].edges, sectorCount)
    requires t == Assemble(ps, normalize)
    ensures Building(t, |ps|, sectorCount) && RangeEnd(t.sectors) == |t.polygons| == PolygonsIn(ps)
  {
    if ps != [] {
      var init := ps[..|ps| - 1];
      var t0 := Assemble(init, normalize);
      AssembleBuilding(init, sectorCount, t0, normalize);
      PartsBuilding(t0, |ps| - 1, ps[|ps| - 1], sectorCount, normalize);
    }
  }

  /** The built tables are what the visibility pipeline needs: well-formed,
      one sector per map sector with plane range 0 .. 3, polygon ranges laid
      end to end over all polygons, and polygon k's plane is plane k. */
  lemma BuildLevelWellFormed(m: LevelMap, normalize: Vec3 -> Vec3)
    requires MapOk(m)
    ensures var t := BuildLevel(m, normalize);
      && WellFormed(t)
      && |t.sectors| == |m.sectors|
      && SectorsLaidOut(t) && RangeEnd(t.sectors) == |t.polygons|
      && (forall k :: 0 <= k < |t.polygons| ==> t.polygons[k].plane == k)
      && PortalLoopsChained(t)
  {
    var t := BuildLevel(m, normalize);
    AssembleBuilding(PartsUpTo(m, |m.sectors|), |m.sectors|, t, normalize);
    forall k | 0 <= k < |t.polygons|
      ensures PolygonOk(t, t.polygons[k]) && t.polygons[k].plane == k
      ensures t.polygons[k].connectedSectorId != NoSector ==>
                LoopChained(t.edges, t.polygons[k].edgeStartIndex, t.polygons[k].edgeCount)
    {
      assert PolygonBuilt(t, k, |m.sectors|);
    }
    forall k | 0 <= k < |t.sectors|
      ensures SectorRangeOk(t, t.sectors[k])
    {
      assert SectorLaidOut(t, k);
    }
  }

  /** A polygon before the end of sector n's range lies in the range of one of
      sectors 0 .. n - 1. */
  lemma {:induction false} RangeContaining(t: Level, j: int, n: int) returns (k: int)
    requires SectorsLaidOut(t) && 0 < n <= |t.sectors|
    requires 0 <= j < t.sectors[n - 1].polygonStartIndex + t.sectors[n - 1].polygonCount
    ensures 0 <= k < n && t.sectors[k].polygonStartIndex <= j < t.sectors[k].polygonStartIndex + t.sectors[k].polygonCount
  {
    assert SectorLaidOut(t, n - 1);
    if j >= t.sectors[n - 1].polygonStartIndex {
      k := n - 1;
    } else {
      k := RangeContaining(t, j, n - 1);
    }
  }

  /** Once every sector is closed, every polygon lies in the range of exactly
      one sector: the one its sectorId names. */
  lemma OwningSector(t: Level)
    requires SectorsLaidOut(t) && RangeEnd(t.sectors) == |t.polygons|
    ensures forall j :: 0 <= j < |t.polygons| ==>
              var k := t.polygons[j].sectorId;
              0 <= k < |t.sectors|
              && t.sectors[k].polygonStartIndex <= j < t.sectors[k].polygonStartIndex + t.sectors[k].polygonCount
    ensures forall j, k :: 0 <= j < |t.polygons| && 0 <= k < |t.sectors|
              && t.sectors[k].polygonStartIndex <= j < t.sectors[k].polygonStartIndex + t.sectors[k].polygonCount
              ==> t.polygons[j].sectorId == k
  {
    forall j | 0 <= j < |t.polygons|
      ensures var k := t.polygons[j].sectorId;
              0 <= k < |t.sectors|
              && t.sectors[k].polygonStartIndex <= j < t.sectors[k].polygonStartIndex + t.sectors[k].polygonCount
    {
      var k := RangeContaining(t, j, |t.sectors|);
      assert SectorLaidOut(t, k);
    }
    forall j, k | 0 <= j < |t.polygons| && 0 <= k < |t.sectors|
              && t.sectors[k].polygonStartIndex <= j < t.sectors[k].polygonStartIndex + t.sectors[k].polygonCount
      ensures t.polygons[j].sectorId == k
    {
      assert SectorLaidOut(t, k);
    }
  }
}
