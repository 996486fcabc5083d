/**
 * The geometry tables the visibility pipeline reads (the level's TopLevelLists)
 * and the work-item records it passes between its phases.
 */
module Tables {
  import opened Geometry

  /** A surface of a sector: an opaque triangle fan (connectedSectorId == -1)
      or a portal edge loop into sector connectedSectorId. */
  datatype PolygonMeta = PolygonMeta(
    edgeStartIndex: int, edgeCount: int,
    triangleStartIndex: int, triangleCount: int,
    connectedSectorId: int, sectorId: int,
    collider: int, opaqueIndex: int,
    plane: int)

  /** A sector: a polygon range and the plane range of its active frustum. */
  datatype SectorMeta = SectorMeta(
    polygonStartIndex: int, polygonCount: int,
    planeStartIndex: int, planeCount: int,
    sectorId: int)

  /** An opaque triangle range to clip against a plane range. */
  datatype TrianglesMeta = TrianglesMeta(
    triangleStartIndex: int, triangleCount: int,
    planeStartIndex: int, planeCount: int,
    sectorId: int)

  /** A portal edge range to clip against a plane range; portalContact == 0
      when the sector behind the portal is already in the visited list. */
  datatype PortalMeta = PortalMeta(
    edgeStartIndex: int, edgeCount: int,
    connectedSectorId: int, sectorId: int,
    planeStartIndex: int, planeCount: int,
    portalContact: int)

  /** A clipped output triangle: three positions and three texture coordinates. */
  datatype Triangle = Triangle(v0: Vec3, v1: Vec3, v2: Vec3, uv0: Vec3, uv1: Vec3, uv2: Vec3)

  const NoSector := -1

  /** The scratch slice of one work item of the clipping jobs: item `index`
      uses entries index * 256 .. index * 256 + 255 of every scratch array. */
  const SliceSize: nat := 256

  datatype Option<T> = None | Some(value: T)

  /** Sequence concatenation is associative (stated once, so that the solver
      need not rediscover it inside larger proofs). */
  lemma ConcatAssoc<T>(a: seq<T>, b: seq<T>, c: seq<T>)
    ensures a + (b + c) == (a + b) + c
  {
  }

  datatype Level = Level(
    vertices: seq<Vec3>,
    textures: seq<Vec3>,
    triangles: seq<int>,
    edges: seq<int>,
    planes: seq<Plane>,
    polygons: seq<PolygonMeta>,
    sectors: seq<SectorMeta>)

  predicate SectorRangeOk(level: Level, s: SectorMeta)
  {
    0 <= s.polygonStartIndex && 0 <= s.polygonCount
    && s.polygonStartIndex + s.polygonCount <= |level.polygons|
  }

  predicate TriangleRangeOk(level: Level, p: PolygonMeta)
  {
    0 <= p.triangleStartIndex && 0 <= p.triangleCount && p.triangleCount % 3 == 0
    && p.triangleStartIndex + p.triangleCount <= |level.triangles|
  }

  predicate EdgeRangeOk(level: Level, p: PolygonMeta)
  {
    0 <= p.edgeStartIndex && 0 <= p.edgeCount && p.edgeCount % 2 == 0
    && p.edgeStartIndex + p.edgeCount <= |level.edges|
  }

  predicate PolygonOk(level: Level, p: PolygonMeta)
  {
    && 0 <= p.plane < |level.planes|
    && (p.connectedSectorId == NoSector || 0 <= p.connectedSectorId < |level.sectors|)
    && (p.connectedSectorId == NoSector ==> TriangleRangeOk(level, p))
    && (p.connectedSectorId != NoSector ==> EdgeRangeOk(level, p))
  }

  /** The vertex index where edge k of the edge range starting at start begins. */
  function EdgeStart(edges: seq<int>, start: int, k: int): int
    requires 0 <= start + 2 * k < |edges|
  {
    edges[start + 2 * k]
  }

  /** The vertex index where edge k of the edge range starting at start ends. */
  function EdgeEnd(edges: seq<int>, start: int, k: int): int
    requires 0 <= start + 2 * k + 1 < |edges|
  {
    edges[start + 2 * k + 1]
  }

  /** The edge range start .. start + count - 1 is a closed chain: each edge
      ends at the vertex where the next one starts, and the last one ends
      where the first one starts. */
  predicate LoopChained(edges: seq<int>, start: int, count: int)
  {
    && 0 <= start && 0 < count && count % 2 == 0 && start + count <= |edges|
    && forall k :: 0 <= k < count / 2 ==> EdgeEnd(edges, start, k) == EdgeStart(edges, start, (k + 1) % (count / 2))
  }

  /** The edge range of every portal polygon is a closed chain. */
  predicate PortalLoopsChained(level: Level)
  {
    forall k :: 0 <= k < |level.polygons| && level.polygons[k].connectedSectorId != NoSector ==>
      LoopChained(level.edges, level.polygons[k].edgeStartIndex, level.polygons[k].edgeCount)
  }

  /** Every index of every table points into the table it names: what the
      pipeline reads without bounds checks. */
  predicate WellFormed(level: Level)
  {
    && |level.textures| == |level.vertices|
    && (forall i :: 0 <= i < |level.triangles| ==> 0 <= level.triangles[i] < |level.vertices|)
    && (forall i :: 0 <= i < |level.edges| ==> 0 <= level.edges[i] < |level.vertices|)
    && (forall i :: 0 <= i < |level.polygons| ==> PolygonOk(level, level.polygons[i]))
    && (forall i :: 0 <= i < |level.sectors| ==> SectorRangeOk(level, level.sectors[i]))
  }

  /** The plane of polygon i. */
  function PolygonPlane(level: Level, i: int): Plane
    requires WellFormed(level) && 0 <= i < |level.polygons|
  {
    level.planes[level.polygons[i].plane]
  }

  /** Double buffers alternate: the step after an even step is odd, and the
      other way round. */
  lemma NextParity(b: nat)
    ensures (b + 1) % 2 == 1 - b % 2
  {
  }

  /** Every entry of the buffer outside the slice starting at base is as in
      `before`: a work item writes only its own slice of a shared buffer. */
  ghost predicate UnchangedOutside<T>(buffer: array<T>, before: seq<T>, base: int)
    reads buffer
  {
    |before| == buffer.Length
    && forall i :: 0 <= i < buffer.Length && !(base <= i < base + SliceSize) ==> buffer[i] == before[i]
  }
}
