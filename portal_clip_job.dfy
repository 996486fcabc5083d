/**
 * ClipPortalsJob on its scratch arrays: every portal item owns the 256-entry
 * slice starting at index * 256 of the edge arrays and of the next frustum
 * buffer; edge slot k of a slice is entries 2k and 2k+1, with one liveness
 * flag per entry. Every method is proved against the edge-slot semantics of
 * portal_clip.dfy.
 */
module PortalClipJob {
  import opened Geometry
  import opened Tables
  import opened PortalClip

  /** The slots with the first c of them marked by a plane pass. */
  function MarkedEdgesUpTo(pl: Plane, slots: seq<EdgeSlot>, c: int): (r: seq<EdgeSlot>)
    ensures |r| == |slots|
    ensures forall k :: 0 <= k < |slots| ==> r[k] == if k < c then MarkEdge(pl, slots[k]) else slots[k]
  {
    seq(|slots|, k requires 0 <= k < |slots| => if k < c then MarkEdge(pl, slots[k]) else slots[k])
  }

  class PortalClipper {
    const processEdgeVertices: array<Vec3>
    const processEdgeFlags: array<bool>
    const temporaryEdgeVertices: array<Vec3>
    const outEdges: array<Vec3>

    ghost predicate Valid()
    {
      && processEdgeVertices != temporaryEdgeVertices && processEdgeVertices != outEdges
      && temporaryEdgeVertices != outEdges
      && processEdgeFlags.Length == processEdgeVertices.Length
      && temporaryEdgeVertices.Length == processEdgeVertices.Length
      && outEdges.Length == processEdgeVertices.Length
    }

    /** Scratch space for `items` portal items. */
    constructor (items: nat)
      ensures Valid() && processEdgeVertices.Length == items * SliceSize
      ensures fresh(processEdgeVertices) && fresh(processEdgeFlags) && fresh(temporaryEdgeVertices)
      ensures fresh(outEdges)
    {
      processEdgeVertices := new Vec3[items * SliceSize](_ => Zero);
      processEdgeFlags := new bool[items * SliceSize](_ => false);
      temporaryEdgeVertices := new Vec3[items * SliceSize](_ => Zero);
      outEdges := new Vec3[items * SliceSize](_ => Zero);
    }

    /** The item slice starting at base lies inside the arrays. */
    ghost predicate SliceOk(base: int)
    {
      Valid() && 0 <= base && base + SliceSize <= processEdgeVertices.Length
    }

    ghost function ProcessEdge(i: int): Edge
      reads processEdgeVertices
      requires Valid() && 0 <= i && i + 1 < processEdgeVertices.Length
    {
      Edge(processEdgeVertices[i], processEdgeVertices[i + 1])
    }

    ghost function TemporaryEdge(i: int): Edge
      reads temporaryEdgeVertices
      requires Valid() && 0 <= i && i + 1 < processEdgeVertices.Length
    {
      Edge(temporaryEdgeVertices[i], temporaryEdgeVertices[i + 1])
    }

    ghost function OutEdge(i: int): Edge
      reads outEdges
      requires Valid() && 0 <= i && i + 1 < processEdgeVertices.Length
    {
      Edge(outEdges[i], outEdges[i + 1])
    }

    /** Every scratch entry outside the slice starting at base is as it was
        in the earlier state: an item touches no other item's slice. */
    twostate predicate KeptOutside(base: int)
      reads processEdgeVertices, processEdgeFlags, temporaryEdgeVertices, outEdges
      requires Valid()
    {
      forall i :: 0 <= i < processEdgeVertices.Length && !(base <= i < base + SliceSize) ==>
        && processEdgeVertices[i] == old(processEdgeVertices[i]) && processEdgeFlags[i] == old(processEdgeFlags[i])
        && temporaryEdgeVertices[i] == old(temporaryEdgeVertices[i]) && outEdges[i] == old(outEdges[i])
    }

    /** The process part of the slice at base holds the edges of `slots`. */
    ghost predicate EdgesHold(base: int, slots: seq<EdgeSlot>)
      reads processEdgeVertices
      requires SliceOk(base)
    {
      2 * |slots| <= SliceSize && forall k :: 0 <= k < |slots| ==> ProcessEdge(base + 2 * k) == slots[k].edge
    }

    /** Both flags of every slot of the slice at base agree with its liveness. */
    ghost predicate FlagsHold(base: int, slots: seq<EdgeSlot>)
      reads processEdgeFlags
      requires SliceOk(base)
    {
      2 * |slots| <= SliceSize
      && forall k :: 0 <= k < |slots| ==>
           processEdgeFlags[base + 2 * k] == slots[k].live && processEdgeFlags[base + 2 * k + 1] == slots[k].live
    }

    /** The process part of the slice at base holds `slots`. */
    ghost predicate Holds(base: int, slots: seq<EdgeSlot>)
      reads processEdgeVertices, processEdgeFlags
      requires SliceOk(base)
    {
      EdgesHold(base, slots) && FlagsHold(base, slots)
    }

    /** The temporary part of the slice at base holds `pieces`. */
    ghost predicate TempHolds(base: int, pieces: seq<Edge>)
      reads temporaryEdgeVertices
      requires SliceOk(base)
    {
      2 * |pieces| <= SliceSize && forall j :: 0 <= j < |pieces| ==> TemporaryEdge(base + 2 * j) == pieces[j]
    }

    /** The out-edge part of the slice at base holds `es`. */
    ghost predicate OutHolds(base: int, es: seq<Edge>)
      reads outEdges
      requires SliceOk(base)
    {
      2 * |es| <= SliceSize && forall j :: 0 <= j < |es| ==> OutEdge(base + 2 * j) == es[j]
    }

    /** Writes a live slot holding e right after the n slots of the slice. */
    method AppendEdge(base: nat, n: nat, e: Edge, ghost slots: seq<EdgeSlot>)
      requires SliceOk(base) && Holds(base, slots) && |slots| == n && 2 * (n + 1) <= SliceSize
      modifies processEdgeVertices, processEdgeFlags
      ensures KeptOutside(base)
      ensures Holds(base, slots + [EdgeSlot(e, true)])
    {
      var i := base + 2 * n;
      processEdgeVertices[i], processEdgeVertices[i + 1] := e.p1, e.p2;
      processEdgeFlags[i], processEdgeFlags[i + 1] := true, true;
      forall k | 0 <= k < n ensures ProcessEdge(base + 2 * k) == slots[k].edge {
        assert ProcessEdge(base + 2 * k) == old(ProcessEdge(base + 2 * k));
      }
      ghost var slots' := slots + [EdgeSlot(e, true)];
      forall k | 0 <= k < n + 1
        ensures processEdgeFlags[base + 2 * k] == processEdgeFlags[base + 2 * k + 1] == slots'[k].live
      {
        if k < n {
          assert slots'[k] == slots[k];
        }
      }
      assert ProcessEdge(i) == e;
    }

    /** The load loop: one live slot per edge of the portal's edge loop. */
    method LoadEdges(level: Level, q: PortalMeta, base: nat) returns (n: nat)
      requires WellFormed(level) && 0 <= q.edgeStartIndex && 0 <= q.edgeCount && q.edgeCount % 2 == 0
      requires q.edgeStartIndex + q.edgeCount <= |level.edges| && q.edgeCount <= SliceSize && SliceOk(base)
      modifies processEdgeVertices, processEdgeFlags
      ensures KeptOutside(base)
      ensures Holds(base, FreshEdges(PortalEdges(level, q))) && n == EdgeCount(q)
    {
      ghost var es := PortalEdges(level, q);
      n := 0;
      var a := q.edgeStartIndex;
      assert FreshEdges(es[..0]) == [];
      while a < q.edgeStartIndex + q.edgeCount
        invariant a == q.edgeStartIndex + 2 * n && n <= EdgeCount(q)
        invariant Holds(base, FreshEdges(es[..n])) && KeptOutside(base)
      {
        var e := Edge(level.vertices[level.edges[a]], level.vertices[level.edges[a + 1]]);
        assert e == es[n];
        AppendEdge(base, n, e, FreshEdges(es[..n]));
        assert FreshEdges(es[..n]) + [EdgeSlot(e, true)] == FreshEdges(es[..n + 1]);
        n := n + 1;
        a := a + 2;
      }
      assert es[..n] == es;
    }

    /** Writes one piece at temporary position 2 * |pieces| of the slice. */
    method PushTemporary(base: nat, tcount: nat, e: Edge, ghost pieces: seq<Edge>)
      requires SliceOk(base) && TempHolds(base, pieces) && tcount == 2 * |pieces| && tcount + 2 <= SliceSize
      modifies temporaryEdgeVertices
      ensures KeptOutside(base)
      ensures TempHolds(base, pieces + [e])
    {
      var i := base + tcount;
      temporaryEdgeVertices[i], temporaryEdgeVertices[i + 1] := e.p1, e.p2;
      forall j | 0 <= j < |pieces| ensures TemporaryEdge(base + 2 * j) == (pieces + [e])[j] {
        assert TemporaryEdge(base + 2 * j) == old(TemporaryEdge(base + 2 * j));
      }
    }

    /** Switches off both flags of slot c. */
    method KillEdge(base: nat, c: nat, ghost slots: seq<EdgeSlot>)
      requires SliceOk(base) && FlagsHold(base, slots) && c < |slots|
      modifies processEdgeFlags
      ensures KeptOutside(base)
      ensures FlagsHold(base, slots[c := EdgeSlot(slots[c].edge, false)])
    {
      var i := base + 2 * c;
      processEdgeFlags[i], processEdgeFlags[i + 1] := false, false;
    }

    /** One step of the scan: slot c is tested against the plane. A straddling
        edge has its front part written to the temporary list, is switched off
        and counted, and its crossing point becomes the exit point (when it runs
        from front to back) or the entry point; an edge behind is switched off. */
    method ScanAt(base: nat, n: nat, c: nat, pl: Plane, ghost slots: seq<EdgeSlot>,
                  intersection: nat, tcount: nat, ip1: Vec3, ip2: Vec3)
      returns (intersection': nat, tcount': nat, ip1': Vec3, ip2': Vec3)
      requires SliceOk(base) && EdgesHold(base, slots) && |slots| == n && c < n
      requires FlagsHold(base, MarkedEdgesUpTo(pl, slots, c))
      requires var r := ScanEdges(pl, slots[..c]);
               && TempHolds(base, r.pieces) && intersection == r.crossings && tcount == 2 * r.crossings
               && ip1 == r.exitPoint && ip2 == r.entryPoint
      modifies processEdgeFlags, temporaryEdgeVertices
      ensures KeptOutside(base)
      ensures FlagsHold(base, MarkedEdgesUpTo(pl, slots, c + 1))
      ensures var r := ScanEdges(pl, slots[..c + 1]);
              && TempHolds(base, r.pieces) && intersection' == r.crossings && tcount' == 2 * r.crossings
              && ip1' == r.exitPoint && ip2' == r.entryPoint
    {
      var i := base + 2 * c;
      ghost var cur := MarkedEdgesUpTo(pl, slots, c);
      assert slots[..c + 1][..c] == slots[..c] && slots[..c + 1][c] == slots[c];
      assert ProcessEdge(i) == slots[c].edge && processEdgeFlags[i] == slots[c].live;
      intersection', tcount', ip1', ip2' := intersection, tcount, ip1, ip2;
      if !processEdgeFlags[i] && !processEdgeFlags[i + 1] {
        assert cur == MarkedEdgesUpTo(pl, slots, c + 1);
        return;
      }
      var p1, p2 := processEdgeVertices[i], processEdgeVertices[i + 1];
      var d1 := Dot(pl.normal, p1) + pl.distance;
      var d2 := Dot(pl.normal, p2) + pl.distance;
      var b0, b1 := d1 >= 0.0, d2 >= 0.0;
      if b0 && b1 {
        assert cur == MarkedEdgesUpTo(pl, slots, c + 1);
      } else if (b0 && !b1) || (!b0 && b1) {
        var t := EdgeParameter(d1, d2);
        var ip := Lerp(p1, p2, t);
        var piece;
        if b0 {
          piece := Edge(p1, ip);
          ip1' := ip;
        } else {
          piece := Edge(ip, p2);
          ip2' := ip;
        }
        ghost var r := ScanEdges(pl, slots[..c]);
        assert ScanEdges(pl, slots[..c + 1]).pieces == r.pieces + [piece];
        PushTemporary(base, tcount, piece, r.pieces);
        tcount' := tcount + 2;
        KillEdge(base, c, cur);
        assert cur[c := EdgeSlot(cur[c].edge, false)] == MarkedEdgesUpTo(pl, slots, c + 1);
        intersection' := intersection + 1;
      } else {
        KillEdge(base, c, cur);
        assert cur[c := EdgeSlot(cur[c].edge, false)] == MarkedEdgesUpTo(pl, slots, c + 1);
      }
    }

    /** The scan loop of one plane over the n slots of the slice. */
    method ScanPass(base: nat, n: nat, pl: Plane, ghost slots: seq<EdgeSlot>)
      returns (intersection: nat, tcount: nat, ip1: Vec3, ip2: Vec3)
      requires SliceOk(base) && Holds(base, slots) && |slots| == n
      modifies processEdgeFlags, temporaryEdgeVertices
      ensures KeptOutside(base)
      ensures EdgesHold(base, slots) && FlagsHold(base, MarkedEdges(pl, slots))
      ensures var r := ScanEdges(pl, slots);
              && TempHolds(base, r.pieces) && intersection == r.crossings && tcount == 2 * r.crossings
              && ip1 == r.exitPoint && ip2 == r.entryPoint
    {
      intersection, tcount, ip1, ip2 := 0, 0, Zero, Zero;
      var c := 0;
      assert slots[..0] == [];
      while c < n
        invariant 0 <= c <= n
        invariant EdgesHold(base, slots) && FlagsHold(base, MarkedEdgesUpTo(pl, slots, c))
        invariant KeptOutside(base)
        invariant var r := ScanEdges(pl, slots[..c]);
                  && TempHolds(base, r.pieces) && intersection == r.crossings && tcount == 2 * r.crossings
                  && ip1 == r.exitPoint && ip2 == r.entryPoint
      {
        intersection, tcount, ip1, ip2 := ScanAt(base, n, c, pl, slots, intersection, tcount, ip1, ip2);
        c := c + 1;
      }
      assert slots[..c] == slots;
      assert MarkedEdgesUpTo(pl, slots, c) == MarkedEdges(pl, slots);
    }

    /** The append loop of one plane: the temporary pieces and then the closing
        edge become new live slots. */
    method AppendPass(base: nat, n: nat, tcount: nat, ip1: Vec3, ip2: Vec3,
                      ghost marked: seq<EdgeSlot>, ghost pieces: seq<Edge>)
      requires SliceOk(base) && Holds(base, marked) && TempHolds(base, pieces)
      requires |marked| == n && tcount == 2 * |pieces| && 2 * (n + |pieces| + 1) <= SliceSize
      modifies processEdgeVertices, processEdgeFlags
      ensures KeptOutside(base)
      ensures Holds(base, marked + FreshEdges(pieces + [Edge(ip1, ip2)]))
    {
      var d := 0;
      ghost var j := 0;
      assert pieces[..0] == [];
      while d < tcount
        invariant 0 <= d <= tcount && d == 2 * j
        invariant Holds(base, marked + FreshEdges(pieces[..j])) && TempHolds(base, pieces)
        invariant KeptOutside(base)
      {
        var e := Edge(temporaryEdgeVertices[base + d], temporaryEdgeVertices[base + d + 1]);
        assert e == pieces[j] && d / 2 == j;
        AppendEdge(base, n + d / 2, e, marked + FreshEdges(pieces[..j]));
        assert marked + FreshEdges(pieces[..j]) + [EdgeSlot(e, true)] == marked + FreshEdges(pieces[..j + 1]);
        d, j := d + 2, j + 1;
      }
      assert pieces[..j] == pieces && tcount / 2 == j;
      AppendEdge(base, n + tcount / 2, Edge(ip1, ip2), marked + FreshEdges(pieces));
      assert marked + FreshEdges(pieces) + [EdgeSlot(Edge(ip1, ip2), true)] == marked + FreshEdges(pieces + [Edge(ip1, ip2)]);
    }

    /** One plane pass: the scan, then, when exactly two edges straddled, the
        append; fails when the slice would overflow. */
    method ClipPass(base: nat, n: nat, pl: Plane, ghost slots: seq<EdgeSlot>) returns (n': nat, ok: bool)
      requires SliceOk(base) && Holds(base, slots) && |slots| == n
      modifies processEdgeVertices, processEdgeFlags, temporaryEdgeVertices
      ensures KeptOutside(base)
      ensures ok <==> 2 * |EdgeStep(pl, slots)| <= SliceSize
      ensures ok ==> Holds(base, EdgeStep(pl, slots)) && n' == |EdgeStep(pl, slots)|
    {
      var intersection, tcount, ip1, ip2 := ScanPass(base, n, pl, slots);
      ghost var r := ScanEdges(pl, slots);
      if intersection == 2 {
        if 2 * (n + intersection + 1) > SliceSize {
          return n, false;
        }
        AppendPass(base, n, tcount, ip1, ip2, MarkedEdges(pl, slots), r.pieces);
        n', ok := n + intersection + 1, true;
      } else {
        assert EdgeStep(pl, slots) == MarkedEdges(pl, slots) + [];
        n', ok := n, true;
      }
    }

    /** The plane loop: one pass per plane of the portal's plane range. */
    method ClipPlanes(base: nat, planes: seq<Plane>, n: nat, ghost slots: seq<EdgeSlot>) returns (n': nat, ok: bool)
      requires SliceOk(base) && Holds(base, slots) && |slots| == n
      modifies processEdgeVertices, processEdgeFlags, temporaryEdgeVertices
      ensures KeptOutside(base)
      ensures ok <==> ClipEdges(planes, slots).Some?
      ensures ok ==> Holds(base, ClipEdges(planes, slots).value) && n' == |ClipEdges(planes, slots).value|
    {
      ghost var cur := slots;
      n' := n;
      var b := 0;
      assert planes[0..] == planes;
      while b < |planes|
        invariant 0 <= b <= |planes| && |cur| == n'
        invariant Holds(base, cur) && KeptOutside(base)
        invariant ClipEdges(planes[b..], cur) == ClipEdges(planes, slots)
      {
        assert planes[b..][0] == planes[b] && planes[b..][1..] == planes[b + 1..];
        var passOk;
        n', passOk := ClipPass(base, n', planes[b], cur);
        if !passOk {
          return n', false;
        }
        cur := EdgeStep(planes[b], cur);
        b := b + 1;
      }
      assert planes[b..] == [];
      ok := true;
    }

    /** Writes one edge at out position 2 * |es| of the slice. */
    method PushOut(base: nat, outCount: nat, e: Edge, ghost es: seq<Edge>)
      requires SliceOk(base) && OutHolds(base, es) && outCount == 2 * |es| && outCount + 2 <= SliceSize
      modifies outEdges
      ensures KeptOutside(base)
      ensures OutHolds(base, es + [e])
    {
      var i := base + outCount;
      outEdges[i], outEdges[i + 1] := e.p1, e.p2;
      forall j | 0 <= j < |es| ensures OutEdge(base + 2 * j) == (es + [e])[j] {
        assert OutEdge(base + 2 * j) == old(OutEdge(base + 2 * j));
      }
    }

    /** The out-edge loop: the edges of the slots whose two flags are set, in slot order. */
    method EmitEdges(base: nat, n: nat, ghost slots: seq<EdgeSlot>) returns (outCount: nat)
      requires SliceOk(base) && Holds(base, slots) && |slots| == n
      modifies outEdges
      ensures KeptOutside(base)
      ensures OutHolds(base, LiveEdges(slots)) && outCount == 2 * |LiveEdges(slots)|
    {
      outCount := 0;
      var e := 0;
      assert slots[..0] == [];
      while e < n
        invariant 0 <= e <= n && OutHolds(base, LiveEdges(slots[..e])) && outCount == 2 * |LiveEdges(slots[..e])|
        invariant KeptOutside(base)
      {
        var i := base + 2 * e;
        assert slots[..e + 1][..e] == slots[..e];
        assert ProcessEdge(i) == slots[e].edge && processEdgeFlags[i] == slots[e].live;
        if processEdgeFlags[i] && processEdgeFlags[i + 1] {
          PushOut(base, outCount, Edge(processEdgeVertices[i], processEdgeVertices[i + 1]), LiveEdges(slots[..e]));
          outCount := outCount + 2;
        }
        e := e + 1;
      }
      assert slots[..e] == slots;
    }

    /** One pass of the frustum loop, over the out edge at f: its plane is
        written after the planes of the earlier edges when its normal is long
        enough. */
    method FrustumStep(base: nat, f: nat, ghost k: nat, count: nat, ghost es: seq<Edge>, point: Vec3, length: Vec3 -> real,
                       nextFrustums: array<Plane>, ghost before: seq<Plane>) returns (count': nat)
      requires SliceOk(base) && OutHolds(base, es) && f == 2 * k && k < |es|
      requires nextFrustums.Length == processEdgeVertices.Length
      requires FrustumHolds(nextFrustums, base, FrustumPlanes(es[..k], point, length))
      requires count == |FrustumPlanes(es[..k], point, length)|
      requires UnchangedOutside(nextFrustums, before, base)
      modifies nextFrustums
      ensures FrustumHolds(nextFrustums, base, FrustumPlanes(es[..k + 1], point, length))
      ensures count' == |FrustumPlanes(es[..k + 1], point, length)|
      ensures UnchangedOutside(nextFrustums, before, base)
    {
      assert es[..k + 1][..k] == es[..k] && es[..k + 1][k] == es[k];
      assert OutEdge(base + 2 * k) == es[k];
      var p0, p1 := outEdges[base + f], outEdges[base + f + 1];
      var normal := Cross(Sub(p0, p1), Sub(point, p1));
      var magnitude := length(normal);
      count' := count;
      if magnitude >= MinNormalLength {
        var normalized := Scale(normal, 1.0 / magnitude);
        var distance := -Dot(normalized, p0);
        assert Plane(normalized, distance) == EdgePlane(es[k], point, magnitude);
        nextFrustums[base + count] := Plane(normalized, distance);
        count' := count + 1;
      }
    }

    /** The frustum loop: one plane per out edge whose normal is long enough,
        written at the start of the slice; nothing outside the slice changes. */
    method BuildFrustum(base: nat, outCount: nat, ghost es: seq<Edge>, point: Vec3, length: Vec3 -> real,
                        nextFrustums: array<Plane>) returns (count: nat)
      requires SliceOk(base) && OutHolds(base, es) && outCount == 2 * |es|
      requires nextFrustums.Length == processEdgeVertices.Length
      modifies nextFrustums
      ensures FrustumHolds(nextFrustums, base, FrustumPlanes(es, point, length))
      ensures count == |FrustumPlanes(es, point, length)|
      ensures UnchangedOutside(nextFrustums, old(nextFrustums[..]), base)
    {
      ghost var before := nextFrustums[..];
      count := 0;
      var f := 0;
      ghost var k := 0;
      assert es[..0] == [];
      while f < outCount
        invariant 0 <= f <= outCount && f == 2 * k
        invariant FrustumHolds(nextFrustums, base, FrustumPlanes(es[..k], point, length))
        invariant count == |FrustumPlanes(es[..k], point, length)|
        invariant UnchangedOutside(nextFrustums, before, base)
      {
        count := FrustumStep(base, f, k, count, es, point, length, nextFrustums, before);
        f, k := f + 2, k + 1;
      }
      assert es[..k] == es;
    }

    /** ClipPortalsJob.Execute(index): portal item `index` works in the slice
        starting at index * 256 of the scratch arrays and of nextFrustums, and
        appends what it enqueues to nextSectors. ok is false when the slice
        overflowed. */
    method Execute(level: Level, frustums: seq<Plane>, original: seq<Plane>, point: Vec3, length: Vec3 -> real,
                   items: seq<PortalMeta>, index: nat, nextFrustums: array<Plane>, nextSectors: seq<SectorMeta>)
      returns (ok: bool, nextSectors': seq<SectorMeta>)
      requires WellFormed(level) && forall i :: 0 <= i < |items| ==> PortalOk(level, frustums, items[i])
      requires |original| == 4 && Valid() && index < |items| && |items| * 256 <= processEdgeVertices.Length
      requires nextFrustums.Length == processEdgeVertices.Length
      modifies processEdgeVertices, processEdgeFlags, temporaryEdgeVertices, outEdges, nextFrustums
      ensures KeptOutside(index * 256)
      ensures var r := ClipPortal(level, frustums, original, point, length, items[index], index * 256);
              && ok == !r.Overflow?
              && nextSectors' == nextSectors + (if r.Enqueue? then [r.sector] else [])
              && (r.Enqueue? ==> FrustumHolds(nextFrustums, index * 256, r.planes))
      ensures UnchangedOutside(nextFrustums, old(nextFrustums[..]), index * 256)
    {
      ok, nextSectors' := ClipPortalAt(level, frustums, original, point, length, items[index], index * 256,
                                       nextFrustums, nextSectors);
    }

    /** The body of Execute for the portal q whose slice starts at base. */
    method ClipPortalAt(level: Level, frustums: seq<Plane>, original: seq<Plane>, point: Vec3, length: Vec3 -> real,
                        q: PortalMeta, base: nat, nextFrustums: array<Plane>, nextSectors: seq<SectorMeta>)
      returns (ok: bool, nextSectors': seq<SectorMeta>)
      requires WellFormed(level) && PortalOk(level, frustums, q) && |original| == 4 && SliceOk(base)
      requires nextFrustums.Length == processEdgeVertices.Length
      modifies processEdgeVertices, processEdgeFlags, temporaryEdgeVertices, outEdges, nextFrustums
      ensures KeptOutside(base)
      ensures var r := ClipPortal(level, frustums, original, point, length, q, base);
              && ok == !r.Overflow?
              && nextSectors' == nextSectors + (if r.Enqueue? then [r.sector] else [])
              && (r.Enqueue? ==> FrustumHolds(nextFrustums, base, r.planes))
      ensures UnchangedOutside(nextFrustums, old(nextFrustums[..]), base)
    {
      if q.portalContact == 0 {
        nextSectors' := ForwardOriginal(level, original, q, base, nextFrustums, nextSectors);
        ok := true;
      } else {
        ok, nextSectors' := ClipAperture(level, frustums, original, point, length, q, base, nextFrustums, nextSectors);
      }
    }

    /** The contact == 0 shortcut: the four original planes are copied to the
        start of the slice and the connected sector is enqueued with them. */
    method ForwardOriginal(level: Level, original: seq<Plane>, q: PortalMeta, base: nat,
                           nextFrustums: array<Plane>, nextSectors: seq<SectorMeta>) returns (nextSectors': seq<SectorMeta>)
      requires 0 <= q.connectedSectorId < |level.sectors| && |original| == 4 && SliceOk(base)
      requires nextFrustums.Length == processEdgeVertices.Length
      modifies nextFrustums
      ensures nextSectors' == nextSectors + [Target(level, q, base, 4)]
      ensures FrustumHolds(nextFrustums, base, original)
      ensures UnchangedOutside(nextFrustums, old(nextFrustums[..]), base)
    {
      var target := level.sectors[q.connectedSectorId];
      nextFrustums[base], nextFrustums[base + 1], nextFrustums[base + 2], nextFrustums[base + 3] :=
        original[0], original[1], original[2], original[3];
      nextSectors' := nextSectors + [SectorMeta(target.polygonStartIndex, target.polygonCount, base, |original|, q.connectedSectorId)];
    }

    /** The clipping path (contact != 0): load, clip plane by plane, collect
        the live edges, reject a degenerate aperture, build the frustum. */
    method ClipAperture(level: Level, frustums: seq<Plane>, original: seq<Plane>, point: Vec3, length: Vec3 -> real,
                        q: PortalMeta, base: nat, nextFrustums: array<Plane>, nextSectors: seq<SectorMeta>)
      returns (ok: bool, nextSectors': seq<SectorMeta>)
      requires WellFormed(level) && PortalOk(level, frustums, q) && |original| == 4 && SliceOk(base)
      requires q.portalContact != 0 && nextFrustums.Length == processEdgeVertices.Length
      modifies processEdgeVertices, processEdgeFlags, temporaryEdgeVertices, outEdges, nextFrustums
      ensures KeptOutside(base)
      ensures var r := ClipPortal(level, frustums, original, point, length, q, base);
              && ok == !r.Overflow?
              && nextSectors' == nextSectors + (if r.Enqueue? then [r.sector] else [])
              && (r.Enqueue? ==> FrustumHolds(nextFrustums, base, r.planes))
      ensures UnchangedOutside(nextFrustums, old(nextFrustums[..]), base)
    {
      ghost var r := ClipPortal(level, frustums, original, point, length, q, base);
      nextSectors' := nextSectors;
      if q.edgeCount > SliceSize {
        assert r == Overflow;
        return false, nextSectors';
      }
      var n := LoadEdges(level, q, base);
      ghost var loaded := FreshEdges(PortalEdges(level, q));
      ghost var clipped := ClipEdges(PortalPlanes(frustums, q), loaded);
      n, ok := ClipPlanes(base, PortalPlanes(frustums, q), n, loaded);
      if !ok {
        assert r == Overflow;
        return;
      }
      ghost var slots := clipped.value;
      var outCount := EmitEdges(base, n, slots);
      if outCount < 6 || outCount % 2 == 1 {
        assert r == Rejected;
        return;
      }
      var count := BuildFrustum(base, outCount, LiveEdges(slots), point, length, nextFrustums);
      var target := level.sectors[q.connectedSectorId];
      nextSectors' := nextSectors + [SectorMeta(target.polygonStartIndex, target.polygonCount, base, count, q.connectedSectorId)];
      ghost var planes := FrustumPlanes(LiveEdges(slots), point, length);
      assert r == Enqueue(Target(level, q, base, count), planes);
    }
  }

  /** Entries base .. base + |planes| - 1 of the buffer hold `planes`, which fit one slice. */
  ghost predicate FrustumHolds(buffer: array<Plane>, base: int, planes: seq<Plane>)
    reads buffer
  {
    0 <= base && |planes| <= SliceSize && base + |planes| <= buffer.Length
    && forall j :: 0 <= j < |planes| ==> buffer[base + j] == planes[j]
  }
}
