# Cell-and-portal visibility of LevelLoader, in Dafny

This project models the visibility pipeline of `LevelLoader.cs`, a Unity
level loader that draws a sector-and-portal level. It also proves properties
of the model.

Each update the pipeline does two things:

- It finds the sectors around the viewer (`GetSectors`). This is a
  breadth-first expansion over the portal graph with a tolerant plane test.
- It walks the portal graph in wavefronts from the viewer's sector
  (`GetPolygons`). For every wavefront it:
  - classifies the polygons of its sectors (`SectorsJob`);
  - clips the opaque triangles against each sector's frustum
    (`ClipTrianglesJob`);
  - clips each portal's edge loop against the same frustum, and builds the
    narrowed frustum of the sector behind it (`ClipPortalsJob`).

The level tables that all of this indexes are built once from the level map
(`BuildGeometry`):

- a wall quad or a portal edge loop per wall piece;
- a floor fan and a ceiling fan per sector;
- one plane per polygon;
- one contiguous polygon range per sector.

Modules (one file each):

- `Geometry` (geometry.dfy): vectors and planes as reals, the signed distance
  `dot(n, p) + d`, and interpolation.
- `Tables` (tables.dfy): the records `PolygonMeta`, `SectorMeta`,
  `TrianglesMeta`, `PortalMeta` and `Triangle`, the level tables, and
  `WellFormed`, which says every stored index lies in range.
- `SectorSet` (sector_set.dfy): `CheckRadius`, `CheckSector`,
  `SectorsContains` and `SectorsDoNotEqual` as read-only loops. Class
  `SectorResolver` holds `contains`, `oldContains`, the two sector lists, the
  current sector and a log of collision toggles; its method is `GetSectors`.
- `Classify` (classify.dfy): `SectorsJob.Execute` as functions.
- `TriangleClip` (triangle_clip.dfy): the one-plane case analysis of the
  triangle clipper, and the slot semantics of the scratch slice, as
  functions.
- `TriangleClipJob` (triangle_clip_job.dfy): class `TriangleClipper`, which
  runs `ClipTrianglesJob.Execute` in place over its scratch arrays
  (vertices, texture coordinates, liveness flags, temporary pieces).
- `PortalClip` (portal_clip.dfy): the one-plane case analysis of an edge,
  the plane pass with its closing edge, the frustum build and the outcome of
  one portal item, as functions.
- `PortalClipJob` (portal_clip_job.dfy): class `PortalClipper`, which runs
  `ClipPortalsJob.Execute` in place over its scratch arrays and writes the
  next plane buffer.
- `Wavefront` (wavefront.dfy): class `PortalEngine`, which is
  `GetPolygons`. It holds the `sideA`/`sideB` lists and the `planeA`/`planeB`
  buffers, which swap after every wavefront.
- `MapGeometry` (map_geometry.dfy): what `BuildGeometry` appends, as
  functions. It has the invariant of the tables and the fan triangulation.
- `GeometryBuilder` (build_geometry.dfy): class `LevelBuilder`, which is
  `BuildGeometry` as loops that append to the tables. Each method is proved
  equal to the functions of `MapGeometry`.

The parallel jobs run as plain loops over their item index. Item `i` works
in its own 256-entry slice of each scratch array, as in the source. The
source lets a slice overflow silently. Here, two kinds of overflow are an
explicit error result (`ok == false`, `Overflow`), and every contract says
what happens then: a scratch slice that would overflow, and a wavefront
with more items than the scratch arrays hold.

Three behaviours of the code that a reader might not expect are kept as
written:

- The radius test of `GetSectors` (`CheckRadius`) uses the planes of the
  polygons of the neighbour being admitted, not the frustum planes of the
  sector being expanded (`LevelLoader.cs:1042-1052, 1156`).
- `GetSectors` appends every frontier sector to `contains` without a
  membership test. A sector admitted by two frontier sectors of the same
  level is therefore visited twice (`LevelLoader.cs:1132-1136`).
- A sector that a portal item enqueues gets the connected sector's index as
  its `sectorId`, not that sector's own `sectorId` field
  (`LevelLoader.cs:484, 634`).

## Model

| member | source | states |
|---|---|---|
| Geometry.CrossingParameter | Assets/Scripts/LevelLoader.cs:288-289 | For an in-side distance >= 0 and an out-side distance < 0, t = inD / (inD - outD) lies in [0, 1): the denominator is positive. |
| Geometry.CrossingPointOnPlane | Assets/Scripts/LevelLoader.cs:288-293 | The point lerp(in, out, t) at that t has signed distance exactly 0 to the clipping plane. |
| Geometry.LerpSignedDistance | Assets/Scripts/LevelLoader.cs:1037-1040 | The signed distance dot(n, p) + d is affine along a segment: at lerp(a, b, t) it is d(a) + t * (d(b) - d(a)). |
| Geometry.LerpKeepsFront | Assets/Scripts/LevelLoader.cs:292-293 | A point between two points in front of a plane is in front of it. |
| Classify.ContactMeaning | Assets/Scripts/LevelLoader.cs:132-140 | The contact flag is 0 or 1, and it is 0 exactly when some entry of `contains` has the connected sector's id. |
| Classify.ContactFromMeaning | Assets/Scripts/LevelLoader.cs:134-140 | The scan from entry b finds a match exactly when some entry at or after b has that id. |
| Classify.ClassifyCount | Assets/Scripts/LevelLoader.cs:101-156 | Each polygon of the sector's range yields at most one item. |
| Classify.ClassifySector | Assets/Scripts/LevelLoader.cs:101-156 | SectorsJob.Execute for one sector yields at most one item per polygon of the sector's range (which items, TrianglesExact and PortalsExact say). |
| Classify.TrianglesExact | Assets/Scripts/LevelLoader.cs:101-128 | A triangle item is emitted exactly for a polygon of the range that faces the viewer (distance > 0) and has connectedSectorId == -1. The item carries that polygon's triangle range and the sector's plane range and id. |
| Classify.PortalsExact | Assets/Scripts/LevelLoader.cs:101-155 | A portal item is emitted exactly for a polygon of the range that faces the viewer and has a connected sector. No item comes from a polygon at distance <= 0. |
| Classify.PortalItemFields | Assets/Scripts/LevelLoader.cs:130-155 | A portal item carries the sector's plane range, one of the polygon's edge ranges (which lies in the edge table), a valid connected sector, and portalContact == 0 iff that sector's id is in `contains`. |
| Classify.PortalItemChained | Assets/Scripts/LevelLoader.cs:130-155 | A portal item's edge range is its polygon's, so it is a closed chain of edges when every portal polygon's range in the tables is one. |
| Classify.TriangleItemFields | Assets/Scripts/LevelLoader.cs:114-128 | A triangle item carries the sector's plane range and id, and a triangle range of whole triangles inside the triangle table. |
| Classify.ClassifyAllTriangles | Assets/Scripts/LevelLoader.cs:97-157 | Over all job items, a triangle item is emitted exactly when some current sector emits it (no order across items). |
| Classify.ClassifyAllPortals | Assets/Scripts/LevelLoader.cs:97-157 | Likewise for portal items. |
| SectorSet.SectorsContains | Assets/Scripts/LevelLoader.cs:1066-1076 | Returns true iff some entry of `contains` has the given sectorId. |
| SectorSet.SectorsDoNotEqual | Assets/Scripts/LevelLoader.cs:1078-1093 | Returns false iff the two lists have the same length and the same sectorId at every index. |
| SectorSet.CheckRadius | Assets/Scripts/LevelLoader.cs:1042-1052 | Returns true iff every plane of the sector's polygons gives the point a signed distance >= -0.6. |
| SectorSet.CheckSector | Assets/Scripts/LevelLoader.cs:1054-1064 | Returns true iff every plane of the sector's polygons has the point in front (distance >= 0). |
| SectorSet.InsideImpliesWithinRadius | Assets/Scripts/LevelLoader.cs:1042-1064 | A point that passes the strict test passes the tolerant one. |
| SectorSet.LastInsideIsInside | Assets/Scripts/LevelLoader.cs:1166-1169 | The current sector after a scan is the last listed sector that contains the point, and none after it does. If none does, it is the old one. |
| SectorSet.LastInsideWithinRadius | Assets/Scripts/LevelLoader.cs:1166-1169 | The new current sector is the old one or a visited sector that contains the viewer, and so passes the radius test. |
| SectorSet.LastInsideAppend | Assets/Scripts/LevelLoader.cs:1164-1169 | Visiting one more sector replaces the current sector exactly when that sector contains the viewer. |
| SectorSet.TrailExtend | Assets/Scripts/LevelLoader.cs:1132-1161 | Appending a sector admitted by an earlier visited one keeps every visited sector after the first admitted by an earlier one. |
| SectorSet.ClosedStep | Assets/Scripts/LevelLoader.cs:1132-1162 | Visiting a sector whose admitted neighbours are all visited or pending keeps the visited list closed up to the pending sectors. |
| SectorSet.AdmittedPrefix | Assets/Scripts/LevelLoader.cs:1140-1161 | A frontier extended only with admitted sectors holds only admitted sectors. |
| SectorSet.Toggles | Assets/Scripts/LevelLoader.cs:1107-1110 | One collision toggle per listed sector, with that sector's id, in list order. |
| SectorSet.SectorResolver.ExpandSector | Assets/Scripts/LevelLoader.cs:1140-1162 | Appends to the output list exactly NewNeighbours: the sectors behind the sector's portal polygons, in polygon order, that are not visited and pass the radius test. Each of them is admitted by the visited list. Every neighbour of the sector that passes the test ends up visited or in the output list. The other list is unchanged. |
| SectorSet.NewNeighboursMembers | Assets/Scripts/LevelLoader.cs:1140-1161 | A sector is in NewNeighbours exactly when a portal polygon of the range leads to it, it is not visited, and it passes the radius test. |
| SectorSet.NewNeighboursAdmitted | Assets/Scripts/LevelLoader.cs:1140-1161 | Every sector NewNeighbours lists has an in-range polygon range, passes the radius test, and is admitted by the sector being expanded. |
| SectorSet.NewNeighboursCover | Assets/Scripts/LevelLoader.cs:1140-1161 | Every neighbour of the expanded sector that passes the radius test is visited or in the list. |
| SectorSet.SectorResolver.VisitSector | Assets/Scripts/LevelLoader.cs:1132-1169 | Appends the sector to `contains` and logs its collision toggle. Keeps the trail, admission and closure invariants. Sets the current sector to the last visited sector containing the viewer. |
| SectorSet.SectorResolver.VisitAt | Assets/Scripts/LevelLoader.cs:1132-1169 | Visiting frontier entry c keeps the loop state (visited prefix, trail, admission, closure, current sector and toggle log) for c + 1. It leaves the other list alone, and grows the output list from FrontierNeighbours up to c to FrontierNeighbours up to c + 1. |
| SectorSet.SectorResolver.ExpandFrontier | Assets/Scripts/LevelLoader.cs:1132-1170 | `contains` grows by exactly the input frontier, in order. The output list is exactly FrontierNeighbours: the new neighbours of each frontier entry in turn, each judged against the visited list once that entry is visited. It holds admitted sectors, and everything unvisited that a visited sector admits is in it. |
| SectorSet.SectorResolver.IgnoreOldContains | Assets/Scripts/LevelLoader.cs:1107-1110 | Logs an ignore-collision toggle for every entry of oldContains, in order. |
| SectorSet.SectorResolver.ExpandLevel | Assets/Scripts/LevelLoader.cs:1112-1170 | One level of the loop: it stops exactly when the input list is empty. Otherwise `contains` grows by the input list, the output list is FrontierNeighbours of it, and the roles of the lists swap. |
| SectorSet.SectorResolver.ExpandLevels | Assets/Scripts/LevelLoader.cs:1112-1171 | At most 4096 levels run. `contains` starts with the start sector, and every later entry was admitted by an earlier one. When the loop ran out of sectors, every neighbour passing the radius test of every visited sector is visited. |
| SectorSet.SectorResolver.SyncOldContains | Assets/Scripts/LevelLoader.cs:1173-1181 | oldContains becomes a copy of `contains` when their ids differ, and is kept otherwise; afterwards their ids agree. |
| SectorSet.SectorResolver.GetSectors | Assets/Scripts/LevelLoader.cs:1095-1182 | Combines the above. `contains` starts with the start sector, and every later entry is admitted. At most 4096 levels run, and a completed traversal is closed. The current sector is the last visited sector containing the viewer, or the old one. oldContains ends with the ids of `contains`. The toggle log is ignore for the old list, then un-ignore for every visited sector. |
| TriangleClip.ClipTriangle | Assets/Scripts/LevelLoader.cs:237-383 | Three vertices in front: the triangle is kept untouched. None in front: it is killed. One in front: exactly one new triangle, whose first vertex is the front vertex and one of the original ones. Two in front: exactly two new triangles. |
| TriangleClip.CrossingOfParameter | Assets/Scripts/LevelLoader.cs:288-297 | A new vertex lies on the plane, at lerp(in, out, t) with t in [0, 1), and its texture coordinate uses the same t. |
| TriangleClip.PiecesInterpolate | Assets/Scripts/LevelLoader.cs:245-377 | Every vertex of a new triangle is a vertex of the clipped triangle, or a crossing point of one of its sides with its texture coordinate interpolated alike. |
| TriangleClip.PiecesInFront | Assets/Scripts/LevelLoader.cs:245-377 | Every vertex of every new triangle is in front of the clipping plane. |
| TriangleClip.PiecesKeepFront | Assets/Scripts/LevelLoader.cs:245-377 | New triangles of a triangle in front of an earlier plane are in front of that plane too. |
| TriangleClip.StepLiving | Assets/Scripts/LevelLoader.cs:211-405 | After a plane, the live triangles are exactly the untouched all-front ones followed by the newly appended ones. |
| TriangleClip.EmittedMarked | Assets/Scripts/LevelLoader.cs:218-384 | The slots still live after marking are the triangles the plane leaves untouched. |
| TriangleClip.EmittedFresh | Assets/Scripts/LevelLoader.cs:387-405 | Appended pieces are live and emitted in append order. |
| TriangleClip.StepInFront | Assets/Scripts/LevelLoader.cs:211-405 | One plane pass keeps every live triangle in front of every plane so far, and adds the new plane. |
| TriangleClip.ClipSlotsInFront | Assets/Scripts/LevelLoader.cs:211-405 | After all the planes, every live triangle is in front of every plane. |
| TriangleClip.EmittedLive | Assets/Scripts/LevelLoader.cs:407-421 | Every emitted triangle is a slot whose liveness flag is still set. |
| TriangleClip.ClipSourceInFront | Assets/Scripts/LevelLoader.cs:192-421 | Every triangle emitted for a source triangle is in front of every plane of the item. |
| TriangleClip.ClipSourceNoPlanes | Assets/Scripts/LevelLoader.cs:192-421 | With no planes the source triangle is emitted unchanged. |
| TriangleClip.ClipSourceAllFront | Assets/Scripts/LevelLoader.cs:192-421 | A source triangle in front of every plane is emitted unchanged. |
| TriangleClipJob.ItemSources | Assets/Scripts/LevelLoader.cs:192-206 | An item has triangleCount / 3 source triangles; source k is read from triangle-table entries start + 3k, +1 and +2. |
| TriangleClipJob.SourcesOfItem | Assets/Scripts/LevelLoader.cs:192-421 | An item emits the concatenation of what its source triangles emit, in triangle-table order, stopping at the first overflow. |
| TriangleClipJob.ItemClipInFront | Assets/Scripts/LevelLoader.cs:186-423 | Every triangle an item emits is in front of every plane of the item's plane range. |
| TriangleClipJob.ItemClipNoPlanes | Assets/Scripts/LevelLoader.cs:192-421 | With planeCount == 0 an item emits its source triangles unchanged, in order. |
| TriangleClipJob.EmissionsOfItems | Assets/Scripts/LevelLoader.cs:186-190 | Item i's emission is what item i does in its own slice; exactly one such list exists. |
| TriangleClipJob.ConcatFailed | Assets/Scripts/LevelLoader.cs:1237-1262 | Once an item overflows, later items add nothing to the job's result. |
| TriangleClipJob.JobClipInFront | Assets/Scripts/LevelLoader.cs:186-423 | A triangle in the job's output comes from some item and is in front of that item's planes. When no item overflowed, every triangle of every item is in the output. |
| TriangleClipJob.TriangleClipper.LoadSource | Assets/Scripts/LevelLoader.cs:194-209 | The slice is reset to one live slot holding the source triangle. |
| TriangleClipJob.TriangleClipper.ClipLiveSlot | Assets/Scripts/LevelLoader.cs:218-384 | Clips one live slot: marks its flags as the case analysis says and writes its pieces after the temporary ones. Fails exactly when the pieces would overflow the slice. |
| TriangleClipJob.TriangleClipper.ClipSlotAt | Assets/Scripts/LevelLoader.cs:218-384 | One step of the slot loop, with skipped dead slots: the first c + 1 slots are marked and their pieces are in the temporary part. |
| TriangleClipJob.TriangleClipper.ClipPass | Assets/Scripts/LevelLoader.cs:213-385 | The slot loop of one plane: all slots marked and the temporary part holding all the pieces, or an overflow. |
| TriangleClipJob.TriangleClipper.AppendPass | Assets/Scripts/LevelLoader.cs:387-404 | The temporary pieces become new live slots after the existing ones. |
| TriangleClipJob.TriangleClipper.ClipPlane | Assets/Scripts/LevelLoader.cs:211-405 | The slice holds the plane step of its slots. Fails exactly when that step would overflow the slice. |
| TriangleClipJob.TriangleClipper.ClipOneSource | Assets/Scripts/LevelLoader.cs:194-421 | Emits exactly the clip of the source triangle by the planes, or nothing and an error when the slice overflows. |
| TriangleClipJob.TriangleClipper.ClipNextSource | Assets/Scripts/LevelLoader.cs:192-421 | Source triangle k of an item, read from the triangle table and clipped in the item's slice, emits exactly what that source triangle contributes to the item. Outside the slice the scratch arrays are unchanged. |
| TriangleClipJob.TriangleClipper.EmitSlots | Assets/Scripts/LevelLoader.cs:407-421 | Emits exactly the triangles of slots whose three flags are set, in slot order. |
| TriangleClipJob.TriangleClipper.ClipItem | Assets/Scripts/LevelLoader.cs:190-422 | Appends exactly the item's emission to finalTriangles, and reports its overflow. |
| TriangleClipJob.TriangleClipper.Execute | Assets/Scripts/LevelLoader.cs:186-423 | ClipTrianglesJob.Execute(index) in slice index * 256: appends ItemClip of item index to finalTriangles. The five scratch arrays are unchanged outside that slice. |
| PortalClip.EdgeParameter | Assets/Scripts/LevelLoader.cs:535 | For a straddling edge, t = d1 / (d1 - d2) lies in [0, 1] with a non-zero denominator. |
| PortalClip.CutEdgeCases | Assets/Scripts/LevelLoader.cs:523-565 | Both ends in front: the edge is kept. Both behind: it is dropped. A straddling edge keeps its front part, cut at a point on the plane between its ends. That point is the exit point (intersectionPoint1) when the edge runs from front to back, else the entry point. |
| PortalClip.CrossingOnPlane | Assets/Scripts/LevelLoader.cs:535-537 | The cut point lerp(p1, p2, t) has signed distance 0. |
| PortalClip.CutKeepsFront | Assets/Scripts/LevelLoader.cs:530-560 | The cut point and kept piece of an edge in front of an earlier plane stay in front of it. |
| PortalClip.ScanPieces | Assets/Scripts/LevelLoader.cs:510-566 | Every temporary piece of a plane pass is the front part of a live straddling edge, and lies in front. |
| PortalClip.ScanExitPoint | Assets/Scripts/LevelLoader.cs:507-544 | intersectionPoint1 is the cut point of some front-to-back edge, or zero when there is none. |
| PortalClip.ScanEntryPoint | Assets/Scripts/LevelLoader.cs:508-549 | intersectionPoint2 is the cut point of some back-to-front edge, or zero when there is none. |
| PortalClip.AppendedCases | Assets/Scripts/LevelLoader.cs:568-586 | The pieces and the closing edge (exit point, entry point) are appended exactly when two edges straddled; otherwise nothing is appended. |
| PortalClip.ClosingInFront | Assets/Scripts/LevelLoader.cs:568-586 | Given a balanced pass (of the two cut edges, one leaves the front and one enters it): the closing edge lies on the plane and in front of every earlier plane. |
| PortalClip.EdgeStepInFront | Assets/Scripts/LevelLoader.cs:502-587 | Given a balanced pass: it keeps every live edge in front of every plane so far, and adds the new plane. |
| PortalClip.ClipEdgesInFront | Assets/Scripts/LevelLoader.cs:502-587 | Given balanced passes: after all the planes, every live edge is in front of every plane. |
| PortalClip.ClosedBalanced | Assets/Scripts/LevelLoader.cs:502-566 | A pass over a closed loop of live edges (starts and ends the same multiset of points) is balanced. |
| PortalClip.EdgeStepClosed | Assets/Scripts/LevelLoader.cs:502-587 | A pass that cuts at most two edges of a closed loop leaves a closed loop: the two front parts and the closing edge replace what lies behind the plane. |
| PortalClip.ClosedPassesBalanced | Assets/Scripts/LevelLoader.cs:502-587 | Clipping a closed loop whose passes each cut at most two live edges is balanced at every pass. |
| PortalClip.ChainedClosed | Assets/Scripts/LevelLoader.cs:492-500 | A chained outline, loaded as live slots, is a closed loop. |
| PortalClip.PortalEdgesChained | Assets/Scripts/LevelLoader.cs:492-500 | The edge loop read for a portal whose edge range is a closed chain in the edge table is chained. |
| PortalClip.ClipPortalEdgesInFront | Assets/Scripts/LevelLoader.cs:488-587 | For a portal whose edge range is chained (as every built portal's is), when every pass cuts at most two edges, every surviving edge is in front of every plane of the portal's plane range. |
| PortalClip.EdgePlaneThrough | Assets/Scripts/LevelLoader.cs:610-624 | A frustum plane built from an edge passes through both ends of the edge and through the viewer. |
| PortalClip.FrustumPlanesCount | Assets/Scripts/LevelLoader.cs:608-626 | The number of emitted planes equals the number of surviving edges whose normal has length >= 0.01. |
| PortalClip.FrustumPlanesFrom | Assets/Scripts/LevelLoader.cs:608-626 | Every emitted plane comes from a surviving edge with a long enough normal, and passes through the viewer. |
| PortalClip.PortalEdges | Assets/Scripts/LevelLoader.cs:492-500 | The portal's loop has edgeCount / 2 edges; edge k joins the vertices of edge-table entries start + 2k and +1. |
| PortalClip.ClipPortalContact | Assets/Scripts/LevelLoader.cs:467-486 | With contact == 0 the connected sector is enqueued without clipping, with the four original planes at the item's base and its own polygon range. |
| PortalClip.ClipPortalRejected | Assets/Scripts/LevelLoader.cs:599-602 | Otherwise, when nothing overflows, the portal is dropped exactly when fewer than three edges (six endpoint values) survive. |
| PortalClip.ClipPortal | Assets/Scripts/LevelLoader.cs:467-635 | ClipPortalsJob.Execute for one portal. An enqueued sector is the one behind the portal, with the plane range (base, number of planes), and its frustum fits in the item's slice. |
| PortalClip.ClipPortalPlanes | Assets/Scripts/LevelLoader.cs:604-635 | An enqueued sector gets the planes built from the surviving edges (at least three), as many as have a long normal, all through the viewer. It has the connected sector's polygon range. |
| PortalClipJob.PortalClipper.LoadEdges | Assets/Scripts/LevelLoader.cs:492-500 | The slice holds the portal's edges, all live. |
| PortalClipJob.PortalClipper.ScanAt | Assets/Scripts/LevelLoader.cs:510-566 | One step of the edge loop: the counters, temporary pieces and both intersection points are those of the scan over the first c + 1 slots. |
| PortalClipJob.PortalClipper.ScanPass | Assets/Scripts/LevelLoader.cs:504-566 | The edge loop of one plane: all slots marked, and the temporary pieces, crossing count and intersection points as ScanEdges says. |
| PortalClipJob.PortalClipper.AppendPass | Assets/Scripts/LevelLoader.cs:570-585 | The pieces and then the closing edge become new live slots. |
| PortalClipJob.PortalClipper.ClipPass | Assets/Scripts/LevelLoader.cs:502-587 | The slice holds the plane step of its slots. Fails exactly when that step would overflow the slice. |
| PortalClipJob.PortalClipper.ClipPlanes | Assets/Scripts/LevelLoader.cs:502-587 | The slice holds the clip of its edges by all the planes, or the clip overflows. |
| PortalClipJob.PortalClipper.EmitEdges | Assets/Scripts/LevelLoader.cs:589-597 | outedges holds exactly the live edges in slot order; the count is twice their number. |
| PortalClipJob.PortalClipper.BuildFrustum | Assets/Scripts/LevelLoader.cs:604-626 | nextFrustums holds FrustumPlanes of the out-edges at the base, and the count is their number. Nothing outside the slice changes. |
| PortalClipJob.PortalClipper.ForwardOriginal | Assets/Scripts/LevelLoader.cs:467-486 | Copies the four original planes to the base and enqueues the connected sector with plane range (base, 4). |
| PortalClipJob.PortalClipper.ClipAperture | Assets/Scripts/LevelLoader.cs:488-635 | For contact != 0: enqueues what ClipPortal says, with its planes written at the base. nextFrustums and the four scratch arrays are unchanged outside the slice. |
| PortalClipJob.PortalClipper.ClipPortalAt | Assets/Scripts/LevelLoader.cs:467-635 | The body of Execute for one portal: reports an overflow exactly when ClipPortal does, appends the sector it enqueues, and writes its frustum at the base. nextFrustums and the scratch arrays are unchanged outside the slice. |
| PortalClipJob.PortalClipper.Execute | Assets/Scripts/LevelLoader.cs:454-636 | ClipPortalsJob.Execute(index) in slice index * 256: appends the enqueued sector if any and writes its frustum. nextFrustums and the four scratch arrays are unchanged outside that slice. |
| Wavefront.ClassifiedItemsOk | Assets/Scripts/LevelLoader.cs:1210-1262 | The items SectorsJob builds for sectors that fit the plane buffer are valid inputs of both clipping jobs. |
| Wavefront.PortalOutcomeAt | Assets/Scripts/LevelLoader.cs:1245-1262 | Portal item i is clipped in its own slice i * 256. |
| Wavefront.EnqueuedFrom | Assets/Scripts/LevelLoader.cs:1245-1262 | Every sector of the next wavefront was enqueued by some portal item, with that item's frustum, which fits its slice. |
| Wavefront.EnqueuedFailed | Assets/Scripts/LevelLoader.cs:1245-1262 | Once a portal item overflows, later items enqueue nothing. |
| Wavefront.WaveOf | Assets/Scripts/LevelLoader.cs:1206-1262 | One wavefront enqueues at most one next sector per portal item, each with its own frustum. |
| Wavefront.WaveOfJobs | Assets/Scripts/LevelLoader.cs:1206-1262 | A wavefront emits the triangle job's output, and its next sectors are those the portal job enqueues. Too many items for the scratch space, or an overflow, ends it with an error. |
| Wavefront.WaveNextFits | Assets/Scripts/LevelLoader.cs:1245-1276 | The next wavefront's sectors fit the other plane buffer, and each plane count is the length of its frustum. |
| Wavefront.WaveOfEmpty | Assets/Scripts/LevelLoader.cs:1204 | An empty wavefront emits nothing and enqueues nothing. |
| Wavefront.WaveTrianglesInFront | Assets/Scripts/LevelLoader.cs:1227-1262 | Every triangle a wavefront emits comes from one of its triangle items and is in front of that item's planes. |
| Wavefront.TraceTrianglesNext | Assets/Scripts/LevelLoader.cs:1204-1278 | The output after n + 1 wavefronts is the output after n followed by what wavefront n + 1 emits. |
| Wavefront.RecordWave | Assets/Scripts/LevelLoader.cs:1204-1278 | Recording a finished wavefront keeps the trace valid, and the output equals the triangles of the trace. |
| Wavefront.PortalEngine.ClipTriangles | Assets/Scripts/LevelLoader.cs:1227-1240 | The triangle job over all items appends the concatenation of their emissions, stopping at the first overflow. |
| Wavefront.PortalEngine.TriangleStep | Assets/Scripts/LevelLoader.cs:1227-1240 | ClipTrianglesJob for one item appends exactly that item's emission to the output and reports its overflow. |
| Wavefront.PortalEngine.ClipPortals | Assets/Scripts/LevelLoader.cs:1242-1258 | The portal job over all items returns the enqueued sectors, in item order, and the next buffer holds each one's frustum at its plane range. |
| Wavefront.PortalEngine.PortalStep | Assets/Scripts/LevelLoader.cs:1242-1258 | ClipPortalsJob for one item: reports an overflow exactly when its outcome is one, appends its enqueued sector, whose plane range starts at the item's slice, and writes its frustum there. The next buffer is unchanged outside the slice. |
| Wavefront.PortalEngine.RunWave | Assets/Scripts/LevelLoader.cs:1206-1262 | One wavefront: the output grows by WaveOf's triangles, and the next sectors and buffer are WaveOf's frontier. |
| Wavefront.PortalEngine.RunJobs | Assets/Scripts/LevelLoader.cs:1206-1262 | The same over the current side and buffer, recorded as the next wavefront. |
| Wavefront.PortalEngine.Advance | Assets/Scripts/LevelLoader.cs:1204-1277 | One pass of the loop. The sides and buffers swap, so the next wavefront reads the list and frustums just written; the wave count's parity says which buffer is current. Keeps the trace valid, or ends in an overflow. |
| Wavefront.PortalEngine.Reset | Assets/Scripts/LevelLoader.cs:1186-1202 | Clears the lists and the output, copies the four original planes into planeA, and makes aSector the only current sector. |
| Wavefront.PortalEngine.GetPolygons | Assets/Scripts/LevelLoader.cs:1184-1279 | The first wavefront is {aSector} over the original frustum. Each later one is the list the previous one enqueued. The output holds the triangles of all of them, in order. The loop ends exactly when the current list is empty, after the wave bound, or at an overflow. |
| MapGeometry.FacePlane | Assets/Scripts/LevelLoader.cs:1494-1500 | A polygon's plane passes through its first vertex. |
| MapGeometry.PortalLoop | Assets/Scripts/LevelLoader.cs:1693-1700 | A portal's edge loop has 8 entries: the closed loop bv, bv+1, bv+1, bv+2, bv+2, bv+3, bv+3, bv. |
| MapGeometry.PortalLoopChained | Assets/Scripts/LevelLoader.cs:1693-1700 | The appended 8-entry portal loop is a closed chain: each edge ends at the corner where the next one starts, the last one back at the first. |
| MapGeometry.LoopChainedGrows | Assets/Scripts/LevelLoader.cs:1407-2126 | Appending to the edge table keeps a chained range chained. |
| MapGeometry.WallTextures | Assets/Scripts/LevelLoader.cs:1456-1468 | Four texture coordinates, all on the quad's layer. The second corner maps to (0, 0). |
| MapGeometry.EdgePiecesShape | Assets/Scripts/LevelLoader.cs:1430-1903 | A solid edge is one floor-to-ceiling wall on layer 3. Otherwise there is an upper wall iff the sector's ceiling is above the neighbour's, a portal into the neighbour iff the neighbour is open, and a lower wall on layer 2 iff the sector's floor is below the neighbour's. The three are stacked. |
| MapGeometry.EdgePiecesCount | Assets/Scripts/LevelLoader.cs:1430-1903 | The polygonCount increments for an edge (one per wall, portal, upper or lower piece) equal its number of pieces. |
| MapGeometry.EdgeListsCount | Assets/Scripts/LevelLoader.cs:1417-1905 | The pieces of edges 0 .. k - 1 are the polygons counted for them. |
| MapGeometry.FanKeptMembers | Assets/Scripts/LevelLoader.cs:1936-1961 | The fan keeps exactly the corner pairs e with e + 2 < vertex count that are not degenerate, in increasing order. |
| MapGeometry.FanShape | Assets/Scripts/LevelLoader.cs:1936-1961 | The fan's index list is the triples (0, e + 1, e + 2) of the kept pairs; every index is below the vertex count. |
| MapGeometry.FanIndicesOk | Assets/Scripts/LevelLoader.cs:1936-1961 | The fan's index list holds whole triangles over the ring's points. |
| MapGeometry.SectorFans | Assets/Scripts/LevelLoader.cs:1909-2109 | A sector whose floor and ceiling differ gets two fans, floor then ceiling; otherwise none. |
| MapGeometry.SectorPartsOf | Assets/Scripts/LevelLoader.cs:1413-2109 | A sector's parts are well formed, and their number is the sector's polygonCount. |
| MapGeometry.PartsUpToSnoc | Assets/Scripts/LevelLoader.cs:1411-2123 | Building sectors 0 .. k is building 0 .. k - 1 and then sector k, whose range starts at the running polygonStart. polygonStart grows by the sector's polygonCount. |
| MapGeometry.AddPieceBuilding | Assets/Scripts/LevelLoader.cs:1430-1502 | Appending a wall quad (6 triangle indices) or a portal (8-entry edge loop), one polygon and one plane keeps every index in range and adds one polygon. |
| MapGeometry.AddEdgesBuilding | Assets/Scripts/LevelLoader.cs:1417-1905 | Appending the pieces of a sector's edges keeps the table invariant and adds one polygon per piece. |
| MapGeometry.AddFanBuilding | Assets/Scripts/LevelLoader.cs:1996-2051 | Appending a fan's vertices, texture coordinates, offset indices, one polygon and one plane keeps the invariant. |
| MapGeometry.CloseSector | Assets/Scripts/LevelLoader.cs:2112-2122 | The sector record starts where the previous range ended, counts the polygons since, and has plane range (0, 4). |
| MapGeometry.PartsBuilding | Assets/Scripts/LevelLoader.cs:1411-2123 | Building one sector keeps the invariant and closes that sector's range at the end of the polygon table. |
| MapGeometry.AssembleBuilding | Assets/Scripts/LevelLoader.cs:1407-2126 | After any number of sectors, the invariant holds and the last range ends at the end of the polygon table. |
| MapGeometry.BuildLevelWellFormed | Assets/Scripts/LevelLoader.cs:1407-2126 | The built tables are well formed and have one sector per map sector. The ranges are contiguous and cover all polygons. Every sector has plane range (0, 4). Polygon k's plane is plane k. Every portal polygon's edge range is a closed chain. |
| MapGeometry.OwningSector | Assets/Scripts/LevelLoader.cs:1411-2122 | Every polygon lies in the range of its own sector and in no other. |
| GeometryBuilder.FanRings | Assets/Scripts/LevelLoader.cs:1918-1931 | The floor and ceiling rings and their texture coordinates, one per loop vertex. |
| GeometryBuilder.FanIndices | Assets/Scripts/LevelLoader.cs:1936-1961 | The loop builds exactly FanTriangles, whose shape FanShape gives. |
| GeometryBuilder.LevelBuilder.AddWall | Assets/Scripts/LevelLoader.cs:1437-1502 | Appends one wall quad as AddPiece says: 4 vertices, 4 texture coordinates, 6 indices, a polygon and a plane. |
| GeometryBuilder.LevelBuilder.AddPortal | Assets/Scripts/LevelLoader.cs:1684-1744 | Appends one portal quad as AddPiece says: 4 vertices, the 8-entry edge loop, a polygon into the neighbour and a plane. |
| GeometryBuilder.LevelBuilder.AddUpper | Assets/Scripts/LevelLoader.cs:1506-1662 | Appends the upper wall exactly when the sector's ceiling is above the neighbour's; returns the count it adds. |
| GeometryBuilder.LevelBuilder.AddOpening | Assets/Scripts/LevelLoader.cs:1665-1744 | Appends the portal exactly when the neighbour is open. |
| GeometryBuilder.LevelBuilder.AddLower | Assets/Scripts/LevelLoader.cs:1747-1903 | Appends the lower wall exactly when the sector's floor is below the neighbour's. |
| GeometryBuilder.LevelBuilder.BuildEdge | Assets/Scripts/LevelLoader.cs:1419-1904 | Appends exactly the edge's pieces and counts them. It fails, changing nothing, on an index the source would reject. |
| GeometryBuilder.LevelBuilder.BuildWalls | Assets/Scripts/LevelLoader.cs:1417-1905 | Appends the pieces of every edge in order, and its polygonCount is WallPolygonCount. |
| GeometryBuilder.LevelBuilder.AddFan | Assets/Scripts/LevelLoader.cs:1996-2051 | Appends a fan's vertices, texture coordinates and offset indices, then one polygon and plane. It fails after the indices when fewer than three indices exist (floortri[0] is out of range). |
| GeometryBuilder.LevelBuilder.BuildFans | Assets/Scripts/LevelLoader.cs:1909-2109 | Appends the floor fan, then the ceiling fan over the reversed ring. |
| GeometryBuilder.LevelBuilder.BuildSector | Assets/Scripts/LevelLoader.cs:1413-2122 | Appends exactly the sector's parts and its SectorMeta; returns its polygonCount. |
| GeometryBuilder.LevelBuilder.BuildGeometry | Assets/Scripts/LevelLoader.cs:1407-2126 | Succeeds exactly on a well-formed map. The tables are then BuildLevel of the map, and so well formed with one sector per map sector. |

## Left out

- Unity plumbing is not modelled: the lifecycle methods, allocation and
  disposal of native arrays, rendering (`CreateMaterial`), input
  (`PlayerInput`) and the camera. `ReadFrustumPlanes` and `SetFrustumPlanes`
  (extracting the frustum from the camera matrix) are not part of this model.
  The original frustum is a parameter of `GetPolygons`.
- Job scheduling is not modelled. Each job is a sequential loop over its
  item index, and the model promises no order across items that the
  parallel writers would not keep.
- Floats are reals. Nothing is claimed about rounding.
- `math.length` is a function parameter (`length`), and the 0.01 threshold
  is applied to its result.
- `math.normalize` is a function parameter (`normalize`). Wall, floor and
  ceiling normals are therefore not modelled beyond "the plane passes
  through the first vertex".
- `Physics.IgnoreCollision` is recorded as an event log in
  `SectorResolver.collisionLog`, not performed.
- `LoadFromFile` (parsing the level file) is not part of this model. The
  level map is a value given to `BuildGeometry`.
- `BuildObjects`, `BuildColliders` and `PlayerStart` (with its random choice)
  are not part of this model.
- Scratch-slice overflow is an explicit error. The source writes past the
  256-entry slice into the next item's slice, or off the array.
- Wavefront.PortalEngine.GetPolygons: the source loop has no bound that
  provably ends it. The model takes a `maxWaves` bound, and says what holds
  when the bound stops the loop before the list is empty.
- The scratch fields `Ceiling`, `Floor`, `LeftPlane` and `TopPlane` of
  `BuildGeometry` are locals of the model.
- GeometryBuilder.LevelBuilder.BuildGeometry: requires freshly emptied
  tables. On failure (a bad vertex index, a missing sector, a fan with no
  triangle) it states only `ok == false`, not the partial tables the source
  leaves behind before it throws.
- GeometryBuilder.LevelBuilder.AddWall: reads the quad corners for the plane
  and texture computations instead of reading them back from the vertex
  table. The values are the same.
- PortalClip.EdgeStepInFront: holds for a balanced pass only. A balanced
  pass follows from a closed loop (ClosedBalanced), but the model does not
  prove that a pass never cuts more than two live edges. That is a
  convexity fact about the portal outline, which the edge table alone does
  not express.
- PortalClip.ClipEdgesInFront: holds for balanced passes only, for the same
  reason. ClosedPassesBalanced discharges it for a closed loop whose passes
  each cut at most two edges.
- PortalClip.ClosingInFront: holds for a balanced pass only, for the same
  reason.
- PortalClip.ClipPortalEdgesInFront: assumes `FewCrossings` (every pass cuts
  at most two live edges). Chaining and closure of the portal loop are
  proved, convexity is not.
- The fixed capacities of `rawTriangles` and `rawPortals`
  (`polygons.Length * 32`), `sideA`/`sideB` (`sectors.Length * 32`) and
  `outTriangles` (`sectors.Length * 32 * 128`), which `AddNoResize` fills
  (`LevelLoader.cs:827-832`), are not modelled. These lists grow without
  bound in the model.
- The order of the entries of `rawTriangles`, `rawPortals`, `outTriangles`
  and `nextSectors` is item order in the model. The source's parallel
  writers give no order, and the model claims nothing about it.
