/**
 * The wavefront driver (LevelLoader.GetPolygons): a breadth-first traversal
 * of the portal graph from the viewer's sector. Every wavefront classifies
 * the polygons of its sectors (SectorsJob), clips the opaque triangle items
 * (ClipTrianglesJob) and the portal items (ClipPortalsJob), and hands the
 * sectors the portal items enqueued, with their narrowed frustums, to the
 * next wavefront. The two sector lists and the two plane buffers swap roles
 * after every wavefront. The parallel jobs run here as plain loops over
 * their item index.
 */
module Wavefront {
  import opened Geometry
  import opened Tables
  import opened SectorSet
  import opened Classify
  import opened TriangleClip
  import opened TriangleClipJob
  import opened PortalClip
  import opened PortalClipJob

  /** A sector of a wavefront: its polygon range lies in the polygon table
      and its plane range in a plane buffer of the given length. */
  predicate SectorFits(level: Level, s: SectorMeta, bufferLength: int)
  {
    SectorRangeOk(level, s) && 0 <= s.planeStartIndex && 0 <= s.planeCount
    && s.planeStartIndex + s.planeCount <= bufferLength
  }

  predicate SectorsFit(level: Level, list: seq<SectorMeta>, bufferLength: int)
  {
    forall k :: 0 <= k < |list| ==> SectorFits(level, list[k], bufferLength)
  }

  predicate TriangleItemsOk(level: Level, frustums: seq<Plane>, items: seq<TrianglesMeta>)
  {
    forall i :: 0 <= i < |items| ==> ItemOk(level, frustums, items[i])
  }

  predicate PortalItemsOk(level: Level, frustums: seq<Plane>, items: seq<PortalMeta>)
  {
    forall i :: 0 <= i < |items| ==> PortalOk(level, frustums, items[i])
  }

  /** The work items SectorsJob builds for sectors that fit the plane buffer
      are items the clipping jobs can run: their triangle and edge ranges lie
      in the tables and their plane ranges in the buffer. */
  lemma ClassifiedItemsOk(level: Level, contains: seq<SectorMeta>, point: Vec3, frustums: seq<Plane>,
                          current: seq<SectorMeta>)
    requires WellFormed(level) && SectorsFit(level, current, |frustums|)
    ensures AllRangesOk(level, current)
    ensures TriangleItemsOk(level, frustums, ClassifyAll(level, contains, point, current, |current|).triangles)
    ensures PortalItemsOk(level, frustums, ClassifyAll(level, contains, point, current, |current|).portals)
  {
    assert AllRangesOk(level, current) by {
      forall k | 0 <= k < |current| ensures SectorRangeOk(level, current[k]) {
        assert SectorFits(level, current[k], |frustums|);
      }
    }
    var c := ClassifyAll(level, contains, point, current, |current|);
    ClassifyAllTriangles(level, contains, point, current, |current|);
    ClassifyAllPortals(level, contains, point, current, |current|);
    forall i | 0 <= i < |c.triangles| ensures ItemOk(level, frustums, c.triangles[i]) {
      var t := c.triangles[i];
      assert t in c.triangles;
      var k :| 0 <= k < |current| && t in ClassifySector(level, contains, point, current[k]).triangles;
      assert SectorFits(level, current[k], |frustums|);
      TriangleItemFields(level, contains, point, current[k], t);
    }
    forall i | 0 <= i < |c.portals| ensures PortalOk(level, frustums, c.portals[i]) {
      var q := c.portals[i];
      assert q in c.portals;
      var k :| 0 <= k < |current| && q in ClassifySector(level, contains, point, current[k]).portals;
      assert SectorFits(level, current[k], |frustums|);
      PortalItemFields(level, contains, point, current[k], q);
      var a :| InRange(current[k], a) && level.polygons[a].connectedSectorId == q.connectedSectorId
               && q.edgeStartIndex == level.polygons[a].edgeStartIndex
               && q.edgeCount == level.polygons[a].edgeCount && EdgeRangeOk(level, level.polygons[a]);
    }
  }

  // ---------------------------------------------------------------------------
  // What one wavefront computes

  /** The outcome of every portal item, item i working in the slice at i * 256. */
  function PortalOutcomes(level: Level, frustums: seq<Plane>, original: seq<Plane>, point: Vec3,
                          length: Vec3 -> real, items: seq<PortalMeta>): (rs: seq<PortalResult>)
    requires WellFormed(level) && |original| == 4
    requires forall i :: 0 <= i < |items| ==> PortalOk(level, frustums, items[i])
    ensures |rs| == |items|
    decreases |items|
  {
    if |items| == 0 then []
    else
      var n := |items| - 1;
      PortalOutcomes(level, frustums, original, point, length, items[..n])
      + [ClipPortal(level, frustums, original, point, length, items[n], n * SliceSize)]
  }

  /** Outcome i is what item i does in its own slice. */
  lemma {:induction false} PortalOutcomeAt(level: Level, frustums: seq<Plane>, original: seq<Plane>, point: Vec3,
                                           length: Vec3 -> real, items: seq<PortalMeta>, i: nat)
    requires WellFormed(level) && |original| == 4
    requires forall i :: 0 <= i < |items| ==> PortalOk(level, frustums, items[i])
    requires i < |items|
    ensures PortalOutcomes(level, frustums, original, point, length, items)[i]
            == ClipPortal(level, frustums, original, point, length, items[i], i * SliceSize)
    decreases |items|
  {
    if i < |items| - 1 {
      var init := items[..|items| - 1];
      PortalOutcomeAt(level, frustums, original, point, length, init, i);
      assert init[i] == items[i];
    }
  }

  /** rs lists the outcome of every portal item in its own slice. The
      quantifier fires only on ClipPortal terms already present, which keeps
      the clipping semantics out of proofs that only need the list. */
  ghost predicate OutcomesOf(level: Level, frustums: seq<Plane>, original: seq<Plane>, point: Vec3,
                             length: Vec3 -> real, items: seq<PortalMeta>, rs: seq<PortalResult>)
    requires WellFormed(level) && |original| == 4
    requires forall i :: 0 <= i < |items| ==> PortalOk(level, frustums, items[i])
  {
    && |rs| == |items|
    && forall i, base {:trigger ClipPortal(level, frustums, original, point, length, items[i], base)} ::
         0 <= i < |items| && base == i * SliceSize ==> rs[i] == ClipPortal(level, frustums, original, point, length, items[i], base)
  }

  /** The outcome list is the one PortalOutcomes builds, and no other. */
  lemma OutcomesOfItems(level: Level, frustums: seq<Plane>, original: seq<Plane>, point: Vec3,
                        length: Vec3 -> real, items: seq<PortalMeta>)
    requires WellFormed(level) && |original| == 4
    requires forall i :: 0 <= i < |items| ==> PortalOk(level, frustums, items[i])
    ensures OutcomesOf(level, frustums, original, point, length, items,
                       PortalOutcomes(level, frustums, original, point, length, items))
    ensures forall rs :: OutcomesOf(level, frustums, original, point, length, items, rs)
                         ==> rs == PortalOutcomes(level, frustums, original, point, length, items)
  {
    var all := PortalOutcomes(level, frustums, original, point, length, items);
    forall i | 0 <= i < |items| {
      PortalOutcomeAt(level, frustums, original, point, length, items, i);
    }
    forall rs | OutcomesOf(level, frustums, original, point, length, items, rs) ensures rs == all {
      forall i | 0 <= i < |items| ensures rs[i] == all[i] {
        assert ClipPortal(level, frustums, original, point, length, items[i], i * SliceSize) == all[i];
      }
    }
  }

  /** The next wavefront: its sectors, the frustum of each, and false once a
      scratch slice or a work list overflowed. */
  datatype Frontier = Frontier(sectors: seq<SectorMeta>, planes: seq<seq<Plane>>, ok: bool)

  /** The sectors the first n portal outcomes enqueue, in item order, stopping
      at the first overflow. */
  function Enqueued(rs: seq<PortalResult>, n: nat): (f: Frontier)
    requires n <= |rs|
    ensures |f.sectors| == |f.planes| <= n
  {
    if n == 0 then Frontier([], [], true)
    else
      var prev := Enqueued(rs, n - 1);
      if !prev.ok then prev
      else match rs[n - 1]
        case Enqueue(s, planes) => Frontier(prev.sectors + [s], prev.planes + [planes], true)
        case Rejected => prev
        case Overflow => Frontier(prev.sectors, prev.planes, false)
  }

  /** Once an outcome overflowed, the frontier stays as it was. */
  lemma {:induction false} EnqueuedFailed(rs: seq<PortalResult>, k: nat, m: nat)
    requires k <= m <= |rs| && !Enqueued(rs, k).ok
    ensures Enqueued(rs, m) == Enqueued(rs, k)
    decreases m - k
  {
    if k < m {
      EnqueuedFailed(rs, k, m - 1);
    }
  }

  /** What one wavefront emits: the clipped triangles and the next wavefront. */
  datatype Wave = Wave(triangles: seq<Triangle>, next: Frontier)

  /** One wavefront over the sectors `current`, whose plane ranges index the
      plane buffer `frustums`, with `capacity` scratch entries per job (one
      256-entry slice per work item).
      Too many items for the scratch space, or a slice overflow in the
      triangle job, end the traversal with an error; each portal item
      enqueues at most one next sector. */
  ghost function WaveOf(level: Level, contains: seq<SectorMeta>, point: Vec3, frustums: seq<Plane>, original: seq<Plane>,
                        length: Vec3 -> real, capacity: nat, current: seq<SectorMeta>): (r: Wave)
    requires WellFormed(level) && |original| == 4 && SectorsFit(level, current, |frustums|)
    ensures |r.next.sectors| == |r.next.planes| <= |ClassifyAll(level, contains, point, current, |current|).portals|
  {
    ClassifiedItemsOk(level, contains, point, frustums, current);
    var c := ClassifyAll(level, contains, point, current, |current|);
    if |c.triangles| * SliceSize > capacity || |c.portals| * SliceSize > capacity then Wave([], Frontier([], [], false))
    else
      EmissionsOfItems(level, frustums, c.triangles);
      var es :| EmissionsOf(level, frustums, c.triangles, es);
      var t := Concat(es, |c.triangles|);
      if !t.ok then Wave(t.out, Frontier([], [], false))
      else
        OutcomesOfItems(level, frustums, original, point, length, c.portals);
        var rs :| OutcomesOf(level, frustums, original, point, length, c.portals, rs);
        Wave(t.out, Enqueued(rs, |c.portals|))
  }

  /** The wavefront's triangles are those of the triangle job, its next
      sectors those the portal job enqueues. */
  lemma WaveOfJobs(level: Level, contains: seq<SectorMeta>, point: Vec3, frustums: seq<Plane>, original: seq<Plane>,
                   length: Vec3 -> real, capacity: nat, current: seq<SectorMeta>)
    requires WellFormed(level) && |original| == 4 && SectorsFit(level, current, |frustums|)
    ensures TriangleItemsOk(level, frustums, ClassifyAll(level, contains, point, current, |current|).triangles)
    ensures PortalItemsOk(level, frustums, ClassifyAll(level, contains, point, current, |current|).portals)
    ensures var c := ClassifyAll(level, contains, point, current, |current|);
            var w := WaveOf(level, contains, point, frustums, original, length, capacity, current);
            if |c.triangles| * SliceSize > capacity || |c.portals| * SliceSize > capacity then w == Wave([], Frontier([], [], false))
            else
              var t := JobClip(level, frustums, c.triangles);
              if !t.ok then w == Wave(t.out, Frontier([], [], false))
              else w == Wave(t.out, Enqueued(PortalOutcomes(level, frustums, original, point, length, c.portals), |c.portals|))
  {
    ClassifiedItemsOk(level, contains, point, frustums, current);
    var c := ClassifyAll(level, contains, point, current, |current|);
    EmissionsOfItems(level, frustums, c.triangles);
    OutcomesOfItems(level, frustums, original, point, length, c.portals);
  }

  /** Every enqueued sector comes from one portal item: its planes are the
      item's frustum, its plane range the start of the item's slice, and its
      polygon range that of the sector behind the portal. */
  lemma {:induction false} EnqueuedFrom(level: Level, frustums: seq<Plane>, original: seq<Plane>, point: Vec3,
                                        length: Vec3 -> real, items: seq<PortalMeta>, n: nat, j: nat)
    requires WellFormed(level) && |original| == 4
    requires forall i :: 0 <= i < |items| ==> PortalOk(level, frustums, items[i])
    requires n <= |items|
    requires j < |Enqueued(PortalOutcomes(level, frustums, original, point, length, items), n).sectors|
    ensures var f := Enqueued(PortalOutcomes(level, frustums, original, point, length, items), n);
            exists i :: 0 <= i < n
                        && ClipPortal(level, frustums, original, point, length, items[i], i * SliceSize)
                           == Enqueue(f.sectors[j], f.planes[j])
                        && f.sectors[j] == Target(level, items[i], i * SliceSize, |f.planes[j]|)
                        && 2 * |f.planes[j]| <= SliceSize
  {
    var rs := PortalOutcomes(level, frustums, original, point, length, items);
    var prev := Enqueued(rs, n - 1);
    var f := Enqueued(rs, n);
    if j < |prev.sectors| && prev.ok {
      EnqueuedFrom(level, frustums, original, point, length, items, n - 1, j);
      if rs[n - 1].Enqueue? {
        assert f.sectors[j] == prev.sectors[j] && f.planes[j] == prev.planes[j];
      }
    } else if !prev.ok {
      EnqueuedFrom(level, frustums, original, point, length, items, n - 1, j);
    } else {
      PortalOutcomeAt(level, frustums, original, point, length, items, n - 1);
    }
  }

  /** The sectors of the next wavefront fit the plane buffer of the same
      length: their polygon ranges come from the sector table and their
      plane ranges lie in the slices of the portal items. */
  lemma WaveNextFits(level: Level, contains: seq<SectorMeta>, point: Vec3, frustums: seq<Plane>, original: seq<Plane>,
                     length: Vec3 -> real, capacity: nat, current: seq<SectorMeta>)
    requires WellFormed(level) && |original| == 4 && SectorsFit(level, current, |frustums|)
    ensures var f := WaveOf(level, contains, point, frustums, original, length, capacity, current).next;
            && SectorsFit(level, f.sectors, capacity)
            && forall j :: 0 <= j < |f.sectors| ==> f.sectors[j].planeCount == |f.planes[j]|
  {
    WaveOfJobs(level, contains, point, frustums, original, length, capacity, current);
    var c := ClassifyAll(level, contains, point, current, |current|);
    var f := WaveOf(level, contains, point, frustums, original, length, capacity, current).next;
    if |c.triangles| * SliceSize <= capacity && |c.portals| * SliceSize <= capacity && JobClip(level, frustums, c.triangles).ok {
      forall j | 0 <= j < |f.sectors|
        ensures SectorFits(level, f.sectors[j], capacity) && f.sectors[j].planeCount == |f.planes[j]|
      {
        EnqueuedFrom(level, frustums, original, point, length, c.portals, |c.portals|, j);
        var i :| 0 <= i < |c.portals|
                 && f.sectors[j] == Target(level, c.portals[i], i * SliceSize, |f.planes[j]|)
                 && 2 * |f.planes[j]| <= SliceSize;
        assert SectorRangeOk(level, level.sectors[c.portals[i].connectedSectorId]);
        assert (i + 1) * SliceSize <= |c.portals| * SliceSize;
      }
    }
  }

  /** A wavefront over no sectors emits nothing and enqueues nothing. */
  lemma WaveOfEmpty(level: Level, contains: seq<SectorMeta>, point: Vec3, frustums: seq<Plane>, original: seq<Plane>,
                    length: Vec3 -> real, capacity: nat)
    requires WellFormed(level) && |original| == 4
    ensures WaveOf(level, contains, point, frustums, original, length, capacity, []) == Wave([], Frontier([], [], true))
  {
    WaveOfJobs(level, contains, point, frustums, original, length, capacity, []);
    var c := ClassifyAll(level, contains, point, [], 0);
    assert c.triangles == [] && c.portals == [];
    assert JobClip(level, frustums, []) == Emission([], true);
  }

  /** Every triangle a wavefront emits comes from a triangle item of one of
      its sectors and lies in front of every plane of that item's frustum. */
  lemma WaveTrianglesInFront(level: Level, contains: seq<SectorMeta>, point: Vec3, frustums: seq<Plane>,
                             original: seq<Plane>, length: Vec3 -> real, capacity: nat, current: seq<SectorMeta>, p: Triangle)
    requires WellFormed(level) && |original| == 4 && SectorsFit(level, current, |frustums|)
    requires p in WaveOf(level, contains, point, frustums, original, length, capacity, current).triangles
    ensures var c := ClassifyAll(level, contains, point, current, |current|);
            exists i :: 0 <= i < |c.triangles| && ItemOk(level, frustums, c.triangles[i])
                        && p in ItemClip(level, frustums, c.triangles[i]).out
                        && AllInFront(ItemPlanes(frustums, c.triangles[i]), ItemClip(level, frustums, c.triangles[i]).out)
  {
    WaveOfJobs(level, contains, point, frustums, original, length, capacity, current);
    var c := ClassifyAll(level, contains, point, current, |current|);
    assert TriangleItemsOk(level, frustums, c.triangles);
    assert p in JobClip(level, frustums, c.triangles).out;
    JobClipInFront(level, frustums, c.triangles, p);
    var i :| 0 <= i < |c.triangles| && p in ItemClip(level, frustums, c.triangles[i]).out
             && AllInFront(ItemPlanes(frustums, c.triangles[i]), ItemClip(level, frustums, c.triangles[i]).out);
    assert ItemOk(level, frustums, c.triangles[i]);
    assert c == ClassifyAll(level, contains, point, current, |current|);
    assert 0 <= i < |c.triangles| && ItemOk(level, frustums, c.triangles[i])
           && p in ItemClip(level, frustums, c.triangles[i]).out
           && AllInFront(ItemPlanes(frustums, c.triangles[i]), ItemClip(level, frustums, c.triangles[i]).out);
  }

  // ---------------------------------------------------------------------------
  // The traversal as a trace of wavefronts

  /** Entries start .. start + |planes| - 1 of the buffer hold the planes. */
  ghost predicate FrustumAt(buffer: seq<Plane>, start: int, planes: seq<Plane>)
  {
    0 <= start && start + |planes| <= |buffer| && forall m :: 0 <= m < |planes| ==> buffer[start + m] == planes[m]
  }

  /** The buffer holds the frustum of every sector of the list from its
      planeStartIndex on. */
  ghost predicate PlanesHeld(buffer: seq<Plane>, sectors: seq<SectorMeta>, planes: seq<seq<Plane>>)
  {
    |sectors| == |planes| && forall j :: 0 <= j < |sectors| ==> FrustumAt(buffer, sectors[j].planeStartIndex, planes[j])
  }

  /** One portal item's step keeps the frustums held below its slice
      (the item writes only inside it) and adds the frustum it wrote there
      when it enqueued a sector. */
  lemma PlanesHeldStep(buffer: array<Plane>, before: seq<Plane>, sectors: seq<SectorMeta>, planes: seq<seq<Plane>>,
                       base: int, added: seq<SectorMeta>, addedPlanes: seq<seq<Plane>>)
    requires PlanesHeld(before, sectors, planes) && UnchangedOutside(buffer, before, base)
    requires forall j :: 0 <= j < |sectors| ==> sectors[j].planeStartIndex + |planes[j]| <= base
    requires |added| == |addedPlanes| <= 1
    requires forall j :: 0 <= j < |added| ==> added[j].planeStartIndex == base && FrustumHolds(buffer, base, addedPlanes[j])
    ensures PlanesHeld(buffer[..], sectors + added, planes + addedPlanes)
    ensures forall j :: 0 <= j < |sectors + added| ==>
              (sectors + added)[j].planeStartIndex + |(planes + addedPlanes)[j]| <= base + SliceSize
  {
    var sectors', planes' := sectors + added, planes + addedPlanes;
    forall j | 0 <= j < |sectors'|
      ensures FrustumAt(buffer[..], sectors'[j].planeStartIndex, planes'[j])
      ensures sectors'[j].planeStartIndex + |planes'[j]| <= base + SliceSize
    {
      if j < |sectors| {
        assert sectors'[j] == sectors[j] && planes'[j] == planes[j];
        var start := sectors[j].planeStartIndex;
        assert FrustumAt(before, start, planes[j]);
        forall m | 0 <= m < |planes[j]| ensures buffer[start + m] == planes[j][m] {
          assert before[start + m] == planes[j][m];
        }
      } else {
        assert sectors'[j] == added[0] && planes'[j] == addedPlanes[0];
        assert FrustumHolds(buffer, base, addedPlanes[0]);
      }
    }
  }

  /** Wavefront `sectors` over the buffer contents `frustums` ran without
      error and produced wavefront `sectors'`, whose frustums the buffer
      contents `frustums'` hold. */
  ghost predicate TraceStep(level: Level, contains: seq<SectorMeta>, point: Vec3, original: seq<Plane>,
                            length: Vec3 -> real, capacity: nat,
                            sectors: seq<SectorMeta>, frustums: seq<Plane>, sectors': seq<SectorMeta>, frustums': seq<Plane>)
    requires WellFormed(level) && |original| == 4
  {
    && SectorsFit(level, sectors, |frustums|)
    && sectors != []
    && var f := WaveOf(level, contains, point, frustums, original, length, capacity, sectors).next;
       f.ok && f.sectors == sectors' && PlanesHeld(frustums', sectors', f.planes)
  }

  /** The triangles the first n wavefronts of a trace emit, in order. */
  ghost function TraceTriangles(level: Level, contains: seq<SectorMeta>, point: Vec3, original: seq<Plane>,
                                length: Vec3 -> real, capacity: nat,
                                waves: seq<seq<SectorMeta>>, frames: seq<seq<Plane>>, n: nat): seq<Triangle>
    requires WellFormed(level) && |original| == 4 && n <= |waves| == |frames|
    requires forall i :: 0 <= i < n ==> SectorsFit(level, waves[i], |frames[i]|)
  {
    if n == 0 then []
    else TraceTriangles(level, contains, point, original, length, capacity, waves, frames, n - 1)
         + WaveOf(level, contains, point, frames[n - 1], original, length, capacity, waves[n - 1]).triangles
  }

  /** The triangles of a trace depend only on the wavefronts they cover. */
  lemma {:induction false} TraceTrianglesPrefix(level: Level, contains: seq<SectorMeta>, point: Vec3, original: seq<Plane>,
                                                length: Vec3 -> real, capacity: nat,
                                                waves: seq<seq<SectorMeta>>, frames: seq<seq<Plane>>,
                                                waves': seq<seq<SectorMeta>>, frames': seq<seq<Plane>>, n: nat)
    requires WellFormed(level) && |original| == 4 && n <= |waves| == |frames| && n <= |waves'| == |frames'|
    requires forall i :: 0 <= i < n ==> waves[i] == waves'[i] && frames[i] == frames'[i]
    requires forall i :: 0 <= i < n ==> SectorsFit(level, waves[i], |frames[i]|)
    ensures TraceTriangles(level, contains, point, original, length, capacity, waves, frames, n)
         == TraceTriangles(level, contains, point, original, length, capacity, waves', frames', n)
  {
    if n > 0 {
      TraceTrianglesPrefix(level, contains, point, original, length, capacity, waves, frames, waves', frames', n - 1);
    }
  }

  /** The first n steps of the trace W (sector lists) over F (buffer
      contents at the start of each wavefront) are runs of WaveOf. */
  ghost predicate TraceValid(level: Level, contains: seq<SectorMeta>, point: Vec3, original: seq<Plane>,
                             length: Vec3 -> real, capacity: nat,
                             W: seq<seq<SectorMeta>>, F: seq<seq<Plane>>, n: nat)
    requires WellFormed(level) && |original| == 4
  {
    && n < |W| == |F|
    && forall i :: 0 <= i < n ==> TraceStep(level, contains, point, original, length, capacity, W[i], F[i], W[i + 1], F[i + 1])
  }

  /** A valid trace extended by one more run of WaveOf stays valid. */
  lemma TraceExtend(level: Level, contains: seq<SectorMeta>, point: Vec3, original: seq<Plane>,
                    length: Vec3 -> real, capacity: nat,
                    W: seq<seq<SectorMeta>>, F: seq<seq<Plane>>, next: seq<SectorMeta>, nf: seq<Plane>)
    requires WellFormed(level) && |original| == 4 && |W| > 0
    requires TraceValid(level, contains, point, original, length, capacity, W, F, |W| - 1)
    requires TraceStep(level, contains, point, original, length, capacity, W[|W| - 1], F[|F| - 1], next, nf)
    ensures TraceValid(level, contains, point, original, length, capacity, W + [next], F + [nf], |W|)
  {
    var W', F' := W + [next], F + [nf];
    forall i | 0 <= i < |W|
      ensures TraceStep(level, contains, point, original, length, capacity, W'[i], F'[i], W'[i + 1], F'[i + 1])
    {
      if i < |W| - 1 {
        assert W'[i] == W[i] && W'[i + 1] == W[i + 1] && F'[i] == F[i] && F'[i + 1] == F[i + 1];
      }
    }
  }

  /** Every wavefront of a valid trace fits its buffer. */
  lemma TraceFits(level: Level, contains: seq<SectorMeta>, point: Vec3, original: seq<Plane>,
                  length: Vec3 -> real, capacity: nat, W: seq<seq<SectorMeta>>, F: seq<seq<Plane>>, n: nat)
    requires WellFormed(level) && |original| == 4
    requires TraceValid(level, contains, point, original, length, capacity, W, F, n)
    ensures forall i :: 0 <= i < n ==> SectorsFit(level, W[i], |F[i]|) && W[i] != []
  {
    forall i | 0 <= i < n ensures SectorsFit(level, W[i], |F[i]|) && W[i] != [] {
      assert TraceStep(level, contains, point, original, length, capacity, W[i], F[i], W[i + 1], F[i + 1]);
    }
  }

  /** The triangles of a trace one wavefront longer are those of the shorter
      trace followed by what the new wavefront emits. */
  lemma TraceTrianglesNext(level: Level, contains: seq<SectorMeta>, point: Vec3, original: seq<Plane>,
                           length: Vec3 -> real, capacity: nat,
                           waves: seq<seq<SectorMeta>>, frames: seq<seq<Plane>>, out: seq<Triangle>)
    requires WellFormed(level) && |original| == 4 && 0 < |waves| == |frames|
    requires forall i :: 0 <= i < |waves| ==> SectorsFit(level, waves[i], |frames[i]|)
    requires out == TraceTriangles(level, contains, point, original, length, capacity,
                                   waves[..|waves| - 1], frames[..|frames| - 1], |waves| - 1)
    ensures out + WaveOf(level, contains, point, frames[|frames| - 1], original, length, capacity, waves[|waves| - 1]).triangles
         == TraceTriangles(level, contains, point, original, length, capacity, waves, frames, |waves|)
  {
    TraceTrianglesPrefix(level, contains, point, original, length, capacity, waves, frames,
                         waves[..|waves| - 1], frames[..|frames| - 1], |waves| - 1);
  }

  /** What one more wavefront adds to a valid trace: its triangles to the
      output and, when it ran without error, one more valid step. */
  lemma RecordWave(level: Level, contains: seq<SectorMeta>, point: Vec3, original: seq<Plane>,
                   length: Vec3 -> real, capacity: nat, W: seq<seq<SectorMeta>>, F: seq<seq<Plane>>,
                   out0: seq<Triangle>, out: seq<Triangle>, ok: bool, next: seq<SectorMeta>, nf: seq<Plane>)
    requires WellFormed(level) && |original| == 4 && 0 < |W| == |F|
    requires TraceValid(level, contains, point, original, length, capacity, W, F, |W| - 1)
    requires forall i :: 0 <= i < |W| ==> SectorsFit(level, W[i], |F[i]|)
    requires out0 == TraceTriangles(level, contains, point, original, length, capacity,
                                    W[..|W| - 1], F[..|F| - 1], |W| - 1)
    requires W[|W| - 1] != [] && |nf| == capacity
    requires var w := WaveOf(level, contains, point, F[|F| - 1], original, length, capacity, W[|W| - 1]);
             && ok == w.next.ok && out == out0 + w.triangles
             && (ok ==> next == w.next.sectors && PlanesHeld(nf, next, w.next.planes))
    ensures out == TraceTriangles(level, contains, point, original, length, capacity, W, F, |W|)
    ensures ok ==> && SectorsFit(level, next, |nf|)
                   && TraceValid(level, contains, point, original, length, capacity, W + [next], F + [nf], |W|)
  {
    TraceTrianglesNext(level, contains, point, original, length, capacity, W, F, out0);
    if ok {
      TraceAdvance(level, contains, point, original, length, capacity, W, F, next, nf);
    }
  }

  /** A wavefront that ran without error, whose next sectors and frustums
      were written to `next` and `nf`, extends a valid trace by one step. */
  lemma TraceAdvance(level: Level, contains: seq<SectorMeta>, point: Vec3, original: seq<Plane>,
                     length: Vec3 -> real, capacity: nat,
                     W: seq<seq<SectorMeta>>, F: seq<seq<Plane>>, next: seq<SectorMeta>, nf: seq<Plane>)
    requires WellFormed(level) && |original| == 4 && 0 < |W| == |F|
    requires TraceValid(level, contains, point, original, length, capacity, W, F, |W| - 1)
    requires W[|W| - 1] != [] && SectorsFit(level, W[|W| - 1], |F[|F| - 1]|) && |nf| == capacity
    requires var w := WaveOf(level, contains, point, F[|F| - 1], original, length, capacity, W[|W| - 1]).next;
             w.ok && next == w.sectors && PlanesHeld(nf, next, w.planes)
    ensures SectorsFit(level, next, |nf|)
    ensures TraceValid(level, contains, point, original, length, capacity, W + [next], F + [nf], |W|)
  {
    WaveNextFits(level, contains, point, F[|F| - 1], original, length, capacity, W[|W| - 1]);
    assert TraceStep(level, contains, point, original, length, capacity, W[|W| - 1], F[|F| - 1], next, nf);
    TraceExtend(level, contains, point, original, length, capacity, W, F, next, nf);
  }

  // ---------------------------------------------------------------------------
  // The driver and its buffers

  class PortalEngine {
    /** Scratch space of ClipTrianglesJob, and its output list (outTriangles). */
    const triangleJob: TriangleClipper
    /** Scratch space of ClipPortalsJob. */
    const portalJob: PortalClipper
    /** The two plane buffers; a wavefront reads its frustums from one and
        writes the next wavefront's into the other. */
    const planeA: array<Plane>
    const planeB: array<Plane>
    /** Entries of every scratch array and plane buffer: 256 per work item. */
    const capacity: nat
    /** The two sector lists of the ping-pong pair. */
    var sideA: seq<SectorMeta>
    var sideB: seq<SectorMeta>
    /** SectorsJob's output lists of the current wavefront. */
    var rawTriangles: seq<TrianglesMeta>
    var rawPortals: seq<PortalMeta>
    /** The sector list of every wavefront started by the last GetPolygons,
        and the contents of its plane buffer when it started. */
    ghost var waves: seq<seq<SectorMeta>>
    ghost var frames: seq<seq<Plane>>

    ghost predicate Valid()
    {
      && triangleJob.Valid() && portalJob.Valid() && planeA != planeB
      && triangleJob.processVertices.Length == capacity && portalJob.processEdgeVertices.Length == capacity
      && planeA.Length == capacity && planeB.Length == capacity
    }

    /** Buffers for `slices` work items per job (the source allocates
        sectorCount * 32 of them). */
    constructor (slices: nat)
      ensures Valid() && capacity == slices * SliceSize && sideA == [] && sideB == []
      ensures triangleJob.finalTriangles == [] && fresh(triangleJob) && fresh(portalJob)
    {
      capacity := slices * SliceSize;
      triangleJob := new TriangleClipper(slices);
      portalJob := new PortalClipper(slices);
      planeA := new Plane[slices * SliceSize](_ => Plane(Zero, 0.0));
      planeB := new Plane[slices * SliceSize](_ => Plane(Zero, 0.0));
      sideA, sideB := [], [];
      rawTriangles, rawPortals := [], [];
      waves, frames := [], [];
    }

    /** The triangles drawn this update (outTriangles). */
    function OutTriangles(): seq<Triangle>
      reads triangleJob
    {
      triangleJob.finalTriangles
    }

    /** ClipTrianglesJob.Execute for item `index`, stated through what the
        item emits, es[index]. */
    method TriangleStep(level: Level, frustums: seq<Plane>, items: seq<TrianglesMeta>, index: nat,
                        ghost es: seq<Emission>) returns (ok: bool)
      requires triangleJob.Valid() && WellFormed(level) && |items| * 256 <= triangleJob.processVertices.Length
      requires forall i :: 0 <= i < |items| ==> ItemOk(level, frustums, items[i])
      requires index < |items| && EmissionsOf(level, frustums, items, es)
      modifies triangleJob`finalTriangles, triangleJob.processVertices, triangleJob.processTextures,
               triangleJob.processFlags, triangleJob.temporaryVertices, triangleJob.temporaryTextures
      ensures triangleJob.finalTriangles == old(triangleJob.finalTriangles) + es[index].out && ok == es[index].ok
    {
      ok := triangleJob.Execute(level, frustums, items, index);
    }

    /** ClipTrianglesJob over every item, one after the other; stops at the
        first item whose slice overflowed. */
    method ClipTriangles(level: Level, frustums: seq<Plane>, items: seq<TrianglesMeta>, ghost es: seq<Emission>)
      returns (ok: bool)
      requires triangleJob.Valid() && WellFormed(level) && |items| * 256 <= triangleJob.processVertices.Length
      requires forall i :: 0 <= i < |items| ==> ItemOk(level, frustums, items[i])
      requires EmissionsOf(level, frustums, items, es)
      modifies triangleJob`finalTriangles, triangleJob.processVertices, triangleJob.processTextures,
               triangleJob.processFlags, triangleJob.temporaryVertices, triangleJob.temporaryTextures
      ensures var t := Concat(es, |items|);
              ok == t.ok && triangleJob.finalTriangles == old(triangleJob.finalTriangles) + t.out
    {
      ghost var before := triangleJob.finalTriangles;
      var index := 0;
      while index < |items|
        invariant 0 <= index <= |items| && Concat(es, index).ok
        invariant triangleJob.finalTriangles == before + Concat(es, index).out
      {
        var itemOk := TriangleStep(level, frustums, items, index, es);
        ConcatNext(es, index, before);
        if !itemOk {
          return false;
        }
        index := index + 1;
      }
      ok := true;
    }

    /** ClipPortalsJob.Execute for item `index`, stated through its outcome
        rs[index]. */
    method PortalStep(level: Level, frustums: seq<Plane>, original: seq<Plane>, point: Vec3, length: Vec3 -> real,
                      items: seq<PortalMeta>, index: nat, nextFrustums: array<Plane>, next: seq<SectorMeta>,
                      ghost rs: seq<PortalResult>)
      returns (ok: bool, next': seq<SectorMeta>)
      requires portalJob.Valid() && nextFrustums.Length == portalJob.processEdgeVertices.Length
      requires WellFormed(level) && |original| == 4 && |items| * 256 <= portalJob.processEdgeVertices.Length
      requires forall i :: 0 <= i < |items| ==> PortalOk(level, frustums, items[i])
      requires index < |items| && OutcomesOf(level, frustums, original, point, length, items, rs)
      modifies portalJob.processEdgeVertices, portalJob.processEdgeFlags, portalJob.temporaryEdgeVertices,
               portalJob.outEdges, nextFrustums
      ensures ok == !rs[index].Overflow?
      ensures next' == next + (if rs[index].Enqueue? then [rs[index].sector] else [])
      ensures rs[index].Enqueue? ==> rs[index].sector.planeStartIndex == index * SliceSize
                                     && FrustumHolds(nextFrustums, index * SliceSize, rs[index].planes)
      ensures UnchangedOutside(nextFrustums, old(nextFrustums[..]), index * SliceSize)
    {
      ok, next' := portalJob.Execute(level, frustums, original, point, length, items, index, nextFrustums, next);
    }

    /** ClipPortalsJob over every item, one after the other, writing into
        `nextFrustums`; stops at the first item whose slice overflowed. */
    method ClipPortals(level: Level, frustums: seq<Plane>, original: seq<Plane>, point: Vec3, length: Vec3 -> real,
                       items: seq<PortalMeta>, nextFrustums: array<Plane>, ghost rs: seq<PortalResult>)
      returns (next: seq<SectorMeta>, ok: bool)
      requires portalJob.Valid() && nextFrustums.Length == portalJob.processEdgeVertices.Length
      requires WellFormed(level) && |original| == 4 && |items| * 256 <= portalJob.processEdgeVertices.Length
      requires forall i :: 0 <= i < |items| ==> PortalOk(level, frustums, items[i])
      requires OutcomesOf(level, frustums, original, point, length, items, rs)
      modifies portalJob.processEdgeVertices, portalJob.processEdgeFlags, portalJob.temporaryEdgeVertices,
               portalJob.outEdges, nextFrustums
      ensures var f := Enqueued(rs, |items|);
              && ok == f.ok && next == f.sectors
              && (ok ==> PlanesHeld(nextFrustums[..], next, f.planes))
    {
      next := [];
      var index := 0;
      while index < |items|
        invariant 0 <= index <= |items| && Enqueued(rs, index).ok
        invariant next == Enqueued(rs, index).sectors
        invariant PlanesHeld(nextFrustums[..], next, Enqueued(rs, index).planes)
        invariant forall j :: 0 <= j < |next| ==> next[j].planeStartIndex + |Enqueued(rs, index).planes[j]| <= index * SliceSize
      {
        ghost var prev := Enqueued(rs, index);
        ghost var r := rs[index];
        ghost var bufferBefore := nextFrustums[..];
        var itemOk;
        itemOk, next := PortalStep(level, frustums, original, point, length, items, index, nextFrustums, next, rs);
        if !itemOk {
          EnqueuedFailed(rs, index + 1, |items|);
          return next, false;
        }
        ghost var added := if r.Enqueue? then [r.sector] else [];
        ghost var addedPlanes := if r.Enqueue? then [r.planes] else [];
        assert Enqueued(rs, index + 1).planes == prev.planes + addedPlanes;
        PlanesHeldStep(nextFrustums, bufferBefore, prev.sectors, prev.planes, index * SliceSize, added, addedPlanes);
        index := index + 1;
      }
      ok := true;
    }

    /** One pass of the GetPolygons loop body: SectorsJob over `current`
        fills rawTriangles and rawPortals, then ClipTrianglesJob appends to
        the output and ClipPortalsJob writes the next wavefront's frustums
        into `nextFrustums`. Too many items for the scratch space, or an
        overflowing slice, ends the pass with ok false. */
    method RunWave(level: Level, contains: seq<SectorMeta>, point: Vec3, original: seq<Plane>, length: Vec3 -> real,
                   current: seq<SectorMeta>, currentFrustums: array<Plane>, nextFrustums: array<Plane>)
      returns (next: seq<SectorMeta>, ok: bool)
      requires Valid() && WellFormed(level) && |original| == 4
      requires currentFrustums.Length == capacity && nextFrustums.Length == capacity
      requires SectorsFit(level, current, capacity)
      modifies this`rawTriangles, this`rawPortals, triangleJob`finalTriangles, triangleJob.processVertices,
               triangleJob.processTextures, triangleJob.processFlags, triangleJob.temporaryVertices,
               triangleJob.temporaryTextures, portalJob.processEdgeVertices, portalJob.processEdgeFlags,
               portalJob.temporaryEdgeVertices, portalJob.outEdges, nextFrustums
      ensures var w := WaveOf(level, contains, point, old(currentFrustums[..]), original, length, capacity, current);
              && ok == w.next.ok && OutTriangles() == old(OutTriangles()) + w.triangles
              && (ok ==> next == w.next.sectors && PlanesHeld(nextFrustums[..], next, w.next.planes))
    {
      ghost var frustums := currentFrustums[..];
      WaveOfJobs(level, contains, point, frustums, original, length, capacity, current);
      var c := ClassifyAll(level, contains, point, current, |current|);
      rawTriangles, rawPortals := c.triangles, c.portals;
      if |c.triangles| * SliceSize > capacity || |c.portals| * SliceSize > capacity {
        return [], false;
      }
      ghost var es := ItemEmissions(level, frustums, c.triangles);
      EmissionsOfItems(level, frustums, c.triangles);
      ok := ClipTriangles(level, currentFrustums[..], c.triangles, es);
      if !ok {
        return [], false;
      }
      ghost var rs := PortalOutcomes(level, frustums, original, point, length, c.portals);
      OutcomesOfItems(level, frustums, original, point, length, c.portals);
      next, ok := ClipPortals(level, currentFrustums[..], original, point, length, c.portals, nextFrustums, rs);
    }

    /** The sector list the next wavefront would read (currentSectors). */
    ghost function CurrentSide(): seq<SectorMeta>
      reads this
    {
      if |waves| % 2 == 0 then sideA else sideB
    }

    /** The plane buffer the next wavefront would read (currentFrustums). */
    ghost function CurrentBuffer(): array<Plane>
      reads this
    {
      if |waves| % 2 == 0 then planeA else planeB
    }

    /** The recorded wavefronts form a valid trace that continues with the
        list and buffer the next wavefront would read, and the output holds
        the triangles the recorded wavefronts emitted. */
    ghost predicate Traced(level: Level, contains: seq<SectorMeta>, point: Vec3, original: seq<Plane>,
                           length: Vec3 -> real)
      reads this, triangleJob, planeA, planeB
      requires WellFormed(level) && |original| == 4
    {
      && |waves| == |frames|
      && SectorsFit(level, CurrentSide(), capacity) && CurrentBuffer().Length == capacity
      && (forall i :: 0 <= i < |waves| ==> SectorsFit(level, waves[i], |frames[i]|))
      && TraceValid(level, contains, point, original, length, capacity,
                    waves + [CurrentSide()], frames + [CurrentBuffer()[..]], |waves|)
      && OutTriangles() == TraceTriangles(level, contains, point, original, length, capacity, waves, frames, |waves|)
    }

    /** The traversal stopped at an overflow: every wavefront recorded but
        the last one produced the next, the last one ran out of scratch
        space, and the output holds the triangles of all of them. */
    ghost predicate Overflowed(level: Level, contains: seq<SectorMeta>, point: Vec3, original: seq<Plane>,
                               length: Vec3 -> real)
      reads this, triangleJob
      requires WellFormed(level) && |original| == 4
    {
      && |waves| == |frames| > 0
      && (forall i :: 0 <= i < |waves| ==> SectorsFit(level, waves[i], |frames[i]|))
      && OutTriangles() == TraceTriangles(level, contains, point, original, length, capacity, waves, frames, |waves|)
      && TraceValid(level, contains, point, original, length, capacity, waves, frames, |waves| - 1)
      && !WaveOf(level, contains, point, frames[|waves| - 1], original, length, capacity, waves[|waves| - 1]).next.ok
    }

    /** The first wavefront is aSector alone, over a buffer that starts with
        the original frustum: still current before any pass, recorded after. */
    ghost predicate Started(original: seq<Plane>, aSector: SectorMeta)
      reads this, planeA, planeB
      requires |original| == 4
    {
      if |waves| == 0 then
        CurrentSide() == [aSector] && CurrentBuffer().Length == capacity >= 4
        && forall k :: 0 <= k < 4 ==> CurrentBuffer()[k] == original[k]
      else
        waves[0] == [aSector] && |frames| > 0 && |frames[0]| == capacity >= 4
        && forall k :: 0 <= k < 4 ==> frames[0][k] == original[k]
    }

    /** The jobs of one pass of the GetPolygons loop: clear the next sector
        list and run the wavefront over the current list and buffer, which
        is recorded in waves and frames. */
    method RunJobs(level: Level, contains: seq<SectorMeta>, point: Vec3, original: seq<Plane>,
                   length: Vec3 -> real, even: bool) returns (next: seq<SectorMeta>, ok: bool)
      requires Valid() && WellFormed(level) && |original| == 4 && even == (|waves| % 2 == 0)
      requires SectorsFit(level, CurrentSide(), capacity)
      modifies this, triangleJob`finalTriangles, triangleJob.processVertices, triangleJob.processTextures,
               triangleJob.processFlags, triangleJob.temporaryVertices, triangleJob.temporaryTextures,
               portalJob.processEdgeVertices, portalJob.processEdgeFlags, portalJob.temporaryEdgeVertices,
               portalJob.outEdges, planeB, planeA
      ensures waves == old(waves) + [old(CurrentSide())] && frames == old(frames) + [old(CurrentBuffer()[..])]
      ensures var w := WaveOf(level, contains, point, old(CurrentBuffer()[..]), original, length, capacity, old(CurrentSide()));
              && ok == w.next.ok && OutTriangles() == old(OutTriangles()) + w.triangles
              && (ok ==> next == w.next.sectors && PlanesHeld((if even then planeB else planeA)[..], next, w.next.planes))
    {
      var current := if even then sideA else sideB;
      var cur, nxt := if even then planeA else planeB, if even then planeB else planeA;
      assert current == CurrentSide() && cur == CurrentBuffer();
      if even { sideB := []; } else { sideA := []; }
      waves, frames := waves + [current], frames + [cur[..]];
      next, ok := RunWave(level, contains, point, original, length, current, cur, nxt);
    }

    /** One pass of the GetPolygons loop: the jobs, then the swap of the two
        sides. On an overflow the trace ends with the wavefront that
        overflowed. */
    method Advance(level: Level, contains: seq<SectorMeta>, point: Vec3, original: seq<Plane>,
                   length: Vec3 -> real, even: bool) returns (ok: bool)
      requires Valid() && WellFormed(level) && |original| == 4 && even == (|waves| % 2 == 0)
      requires Traced(level, contains, point, original, length) && CurrentSide() != []
      modifies this, triangleJob`finalTriangles, triangleJob.processVertices, triangleJob.processTextures,
               triangleJob.processFlags, triangleJob.temporaryVertices, triangleJob.temporaryTextures,
               portalJob.processEdgeVertices, portalJob.processEdgeFlags, portalJob.temporaryEdgeVertices,
               portalJob.outEdges, planeA, planeB
      ensures waves == old(waves) + [old(CurrentSide())] && frames == old(frames) + [old(CurrentBuffer()[..])]
      ensures ok ==> Traced(level, contains, point, original, length)
      ensures !ok ==> Overflowed(level, contains, point, original, length)
    {
      ghost var W, F := waves + [CurrentSide()], frames + [CurrentBuffer()[..]];
      ghost var out0, n := OutTriangles(), |waves|;
      assert W[..|W| - 1] == waves && F[..|F| - 1] == frames;
      var next;
      next, ok := RunJobs(level, contains, point, original, length, even);
      ghost var nxt := if even then planeB else planeA;
      RecordWave(level, contains, point, original, length, capacity, W, F, out0, OutTriangles(), ok, next, nxt[..]);
      if !ok {
        return;
      }
      NextParity(n);
      Swap(next, even);
    }

    /** The end of a GetPolygons pass: the list just written becomes the
        current side, and its plane buffer the current buffer. */
    method Swap(next: seq<SectorMeta>, even: bool)
      requires even == (|waves| % 2 != 0)
      modifies this`sideA, this`sideB
      ensures CurrentSide() == next && CurrentBuffer() == (if even then planeB else planeA)
    {
      if even { sideB := next; } else { sideA := next; }
    }

    /** The start of GetPolygons: both sector lists and the output are
        cleared, the original frustum goes into the first entries of planeA
        and aSector is the only sector of the first wavefront. */
    method Reset(level: Level, contains: seq<SectorMeta>, point: Vec3, original: seq<Plane>,
                 length: Vec3 -> real, aSector: SectorMeta)
      requires Valid() && WellFormed(level) && |original| == 4 && 4 <= capacity
      requires SectorFits(level, aSector, capacity)
      modifies this, triangleJob`finalTriangles, planeA
      ensures waves == [] && CurrentSide() == [aSector] && CurrentBuffer() == planeA
      ensures forall k :: 0 <= k < 4 ==> planeA[k] == original[k]
      ensures Traced(level, contains, point, original, length)
    {
      sideA, sideB := [], [];
      triangleJob.finalTriangles := [];
      planeA[0], planeA[1], planeA[2], planeA[3] := original[0], original[1], original[2], original[3];
      sideA := [aSector];
      waves, frames := [], [];
      assert CurrentSide() == [aSector] && CurrentBuffer() == planeA;
      assert SectorsFit(level, [aSector], capacity);
      assert TraceValid(level, contains, point, original, length, capacity, [[aSector]], [planeA[..]], 0);
      assert OutTriangles() == TraceTriangles(level, contains, point, original, length, capacity, [], [], 0);
    }

    /** LevelLoader.GetPolygons: the breadth-first traversal from aSector
        with the four planes of the original frustum. At most maxWaves
        wavefronts run. Every wavefront started is recorded in waves and
        frames; the output holds the triangles of all of them, in order.
        complete is true when the traversal ran out of sectors, ok is false
        when a wavefront overflowed its scratch space. */
    method GetPolygons(level: Level, contains: seq<SectorMeta>, point: Vec3, original: seq<Plane>,
                       length: Vec3 -> real, aSector: SectorMeta, maxWaves: nat)
      returns (ok: bool, complete: bool)
      requires Valid() && WellFormed(level) && |original| == 4 && 4 <= capacity
      requires SectorFits(level, aSector, capacity)
      modifies this, triangleJob`finalTriangles, triangleJob.processVertices, triangleJob.processTextures,
               triangleJob.processFlags, triangleJob.temporaryVertices, triangleJob.temporaryTextures,
               portalJob.processEdgeVertices, portalJob.processEdgeFlags, portalJob.temporaryEdgeVertices,
               portalJob.outEdges, planeA, planeB
      ensures |waves| == |frames| <= maxWaves && (maxWaves > 0 ==> |waves| > 0)
      ensures Started(original, aSector)
      ensures ok ==> && Traced(level, contains, point, original, length)
                     && (complete <==> CurrentSide() == []) && (!complete ==> |waves| == maxWaves)
      ensures !ok ==> Overflowed(level, contains, point, original, length)
    {
      Reset(level, contains, point, original, length, aSector);
      var jobsCompleted := 0;
      while jobsCompleted < maxWaves && (if jobsCompleted % 2 == 0 then sideA else sideB) != []
        invariant Valid() && jobsCompleted == |waves| <= maxWaves
        invariant Traced(level, contains, point, original, length)
        invariant Started(original, aSector)
        decreases maxWaves - jobsCompleted
      {
        ok := Advance(level, contains, point, original, length, jobsCompleted % 2 == 0);
        if !ok {
          return false, false;
        }
        jobsCompleted := jobsCompleted + 1;
      }
      ok, complete := true, (if jobsCompleted % 2 == 0 then sideA else sideB) == [];
    }
  }
}
