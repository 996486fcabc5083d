/**
 * What ClipPortalsJob computes, as values: the one-plane case analysis of a
 * portal edge, one plane pass over the edge slots of a portal's scratch slice
 * (with the closing edge between the two crossing points), the narrowed
 * frustum built from the surviving edges, and the outcome for one portal
 * item. The scratch arrays themselves are in portal_clip_job.dfy.
 */
module PortalClip {
  import opened Geometry
  import opened Tables

  /** A portal edge: the two endpoints one edge slot holds. */
  datatype Edge = Edge(p1: Vec3, p2: Vec3)

  /** An edge slot of a portal's scratch slice and its liveness (the job sets
      the two flags of a slot together). */
  datatype EdgeSlot = EdgeSlot(edge: Edge, live: bool)

  /** The interpolation parameter t = d1 / (d1 - d2) of an edge with exactly
      one endpoint in front; the denominator is never zero. */
  function EdgeParameter(d1: real, d2: real): (t: real)
    requires (d1 >= 0.0) != (d2 >= 0.0)
    ensures 0.0 <= t <= 1.0 && t * (d1 - d2) == d1
  {
    if d1 >= 0.0 then
      RatioBounds(d1, d1 - d2);
      d1 / (d1 - d2)
    else
      RatioBounds(-d1, d2 - d1);
      (-d1) / (d2 - d1)
  }

  /** A ratio of a non-negative number to a larger positive one lies in
      [0, 1]. */
  lemma RatioBounds(a: real, b: real)
    requires 0.0 <= a <= b && 0.0 < b
    ensures 0.0 <= a / b <= 1.0 && (a / b) * b == a
  {
    assert (a / b) * b == a;
  }

  /** What one plane does to one live edge. */
  datatype EdgeCut = EdgeKeep | EdgeDrop | EdgeCross(piece: Edge, exits: bool, point: Vec3)

  /** The sign case analysis of the portal clipper for one edge: an edge with
      both ends in front is kept, one with both behind is dropped, and a
      straddling edge is cut at t, keeping its front part. `exits` is true when
      the edge runs from the front to the back (the crossing is the loop's exit
      point, intersectionPoint1), false when it enters (intersectionPoint2). */
  function CutEdge(pl: Plane, e: Edge): EdgeCut
  {
    var d1, d2 := SignedDistance(pl, e.p1), SignedDistance(pl, e.p2);
    var b0, b1 := d1 >= 0.0, d2 >= 0.0;
    if b0 && b1 then EdgeKeep
    else if (b0 && !b1) || (!b0 && b1) then
      var ip := Lerp(e.p1, e.p2, EdgeParameter(d1, d2));
      if b0 then EdgeCross(Edge(e.p1, ip), true, ip) else EdgeCross(Edge(ip, e.p2), false, ip)
    else EdgeDrop
  }

  /** Both endpoints of e are in front of pl. */
  predicate EdgeInFront(pl: Plane, e: Edge)
  {
    InFront(pl, e.p1) && InFront(pl, e.p2)
  }

  /** The three cases, and where the crossing point lies: on the plane, on the
      edge, with the front endpoint kept. */
  lemma CutEdgeCases(pl: Plane, e: Edge)
    ensures CutEdge(pl, e) == EdgeKeep <==> EdgeInFront(pl, e)
    ensures CutEdge(pl, e) == EdgeDrop <==> !InFront(pl, e.p1) && !InFront(pl, e.p2)
    ensures CutEdge(pl, e).EdgeCross? ==>
              var c := CutEdge(pl, e);
              && SignedDistance(pl, c.point) == 0.0
              && (c.exits <==> InFront(pl, e.p1))
              && (c.exits ==> c.piece == Edge(e.p1, c.point))
              && (!c.exits ==> c.piece == Edge(c.point, e.p2))
              && EdgeInFront(pl, c.piece)
              && exists t: real :: 0.0 <= t <= 1.0 && c.point == Lerp(e.p1, e.p2, t)
  {
    var d1, d2 := SignedDistance(pl, e.p1), SignedDistance(pl, e.p2);
    if (d1 >= 0.0) != (d2 >= 0.0) {
      CrossingOnPlane(pl, e.p1, e.p2);
    }
  }

  /** The crossing point of a straddling edge lies on the plane. */
  lemma CrossingOnPlane(pl: Plane, a: Vec3, b: Vec3)
    requires (SignedDistance(pl, a) >= 0.0) != (SignedDistance(pl, b) >= 0.0)
    ensures SignedDistance(pl, Lerp(a, b, EdgeParameter(SignedDistance(pl, a), SignedDistance(pl, b)))) == 0.0
  {
    var d1, d2 := SignedDistance(pl, a), SignedDistance(pl, b);
    var t := EdgeParameter(d1, d2);
    LerpSignedDistance(pl, a, b, t);
    assert t * (d2 - d1) == -d1;
  }

  /** A crossing point of an edge in front of another plane q is in front of q too. */
  lemma CutKeepsFront(pl: Plane, q: Plane, e: Edge)
    requires EdgeInFront(q, e)
    ensures CutEdge(pl, e).EdgeCross? ==> InFront(q, CutEdge(pl, e).point) && EdgeInFront(q, CutEdge(pl, e).piece)
  {
    CutEdgeCases(pl, e);
    if CutEdge(pl, e).EdgeCross? {
      var t: real :| 0.0 <= t <= 1.0 && CutEdge(pl, e).point == Lerp(e.p1, e.p2, t);
      LerpKeepsFront(q, e.p1, e.p2, t);
    }
  }

  // ---------------------------------------------------------------------------
  // One plane pass over the edge slots

  /** What the scan over the edge slots gathers for one plane: the front parts
      of the straddling edges (the temporary list), their number, and the last
      exit and entry points (both zero until set). */
  datatype Scan = Scan(pieces: seq<Edge>, crossings: nat, exitPoint: Vec3, entryPoint: Vec3)

  function ScanEdges(pl: Plane, slots: seq<EdgeSlot>): (r: Scan)
    ensures |r.pieces| == r.crossings <= |slots|
  {
    if |slots| == 0 then Scan([], 0, Zero, Zero)
    else
      var r := ScanEdges(pl, slots[..|slots| - 1]);
      var s := slots[|slots| - 1];
      if !s.live then r
      else match CutEdge(pl, s.edge)
        case EdgeCross(piece, exits, ip) =>
          Scan(r.pieces + [piece], r.crossings + 1,
               if exits then ip else r.exitPoint, if exits then r.entryPoint else ip)
        case _ => r
  }

  /** What one plane pass does to an existing slot: a live edge not entirely in
      front is switched off. */
  function MarkEdge(pl: Plane, s: EdgeSlot): EdgeSlot
  {
    if s.live && !EdgeInFront(pl, s.edge) then EdgeSlot(s.edge, false) else s
  }

  function MarkedEdges(pl: Plane, slots: seq<EdgeSlot>): (r: seq<EdgeSlot>)
    ensures |r| == |slots| && forall k :: 0 <= k < |slots| ==> r[k] == MarkEdge(pl, slots[k])
  {
    seq(|slots|, k requires 0 <= k < |slots| => MarkEdge(pl, slots[k]))
  }

  function FreshEdges(es: seq<Edge>): (r: seq<EdgeSlot>)
    ensures |r| == |es| && forall j :: 0 <= j < |es| ==> r[j] == EdgeSlot(es[j], true)
  {
    seq(|es|, j requires 0 <= j < |es| => EdgeSlot(es[j], true))
  }

  /** The edges a plane pass appends: when exactly two edges straddled, the
      front parts followed by the closing edge from the exit point to the
      entry point; otherwise nothing. */
  function Appended(pl: Plane, slots: seq<EdgeSlot>): seq<Edge>
  {
    var r := ScanEdges(pl, slots);
    if r.crossings == 2 then r.pieces + [Edge(r.exitPoint, r.entryPoint)] else []
  }

  /** One plane pass: existing slots marked, the appended edges added as live slots. */
  function EdgeStep(pl: Plane, slots: seq<EdgeSlot>): seq<EdgeSlot>
  {
    MarkedEdges(pl, slots) + FreshEdges(Appended(pl, slots))
  }

  /** Passes over the plane list in order; None when a pass would write past
      the portal's slice. */
  function ClipEdges(planes: seq<Plane>, slots: seq<EdgeSlot>): Option<seq<EdgeSlot>>
    decreases |planes|
  {
    if |planes| == 0 then Some(slots)
    else
      var next := EdgeStep(planes[0], slots);
      if 2 * |next| > SliceSize then None else ClipEdges(planes[1..], next)
  }

  /** The living edges of a slot list, in slot order (what the out-edge loop collects). */
  function LiveEdges(slots: seq<EdgeSlot>): (es: seq<Edge>)
    ensures |es| <= |slots|
  {
    if |slots| == 0 then []
    else LiveEdges(slots[..|slots| - 1]) + (if slots[|slots| - 1].live then [slots[|slots| - 1].edge] else [])
  }

  // ---------------------------------------------------------------------------
  // Properties of one plane pass

  /** The scan counts the live straddling edges, and every piece it gathers is
      the front part of one of them. */
  lemma {:induction false} ScanPieces(pl: Plane, slots: seq<EdgeSlot>, e: Edge)
    requires e in ScanEdges(pl, slots).pieces
    ensures EdgeInFront(pl, e)
    ensures exists k :: 0 <= k < |slots| && slots[k].live && CutEdge(pl, slots[k].edge).EdgeCross?
                        && e == CutEdge(pl, slots[k].edge).piece
    decreases |slots|
  {
    var init := slots[..|slots| - 1];
    var s := slots[|slots| - 1];
    if e in ScanEdges(pl, init).pieces {
      ScanPieces(pl, init, e);
      var k :| 0 <= k < |init| && init[k].live && CutEdge(pl, init[k].edge).EdgeCross?
               && e == CutEdge(pl, init[k].edge).piece;
      assert slots[k] == init[k];
    } else {
      CutEdgeCases(pl, s.edge);
    }
  }

  /** Slot k holds a live edge that runs from the front of pl to its back. */
  ghost predicate ExitsAt(pl: Plane, slots: seq<EdgeSlot>, k: int)
  {
    0 <= k < |slots| && slots[k].live && CutEdge(pl, slots[k].edge).EdgeCross? && CutEdge(pl, slots[k].edge).exits
  }

  /** Slot k holds a live edge that runs from the back of pl to its front. */
  ghost predicate EntersAt(pl: Plane, slots: seq<EdgeSlot>, k: int)
  {
    0 <= k < |slots| && slots[k].live && CutEdge(pl, slots[k].edge).EdgeCross? && !CutEdge(pl, slots[k].edge).exits
  }

  /** The exit point is the crossing point of an exiting edge when there is
      one and zero otherwise. */
  lemma {:induction false} ScanExitPoint(pl: Plane, slots: seq<EdgeSlot>)
    ensures (exists k :: ExitsAt(pl, slots, k)) ==>
              exists k :: ExitsAt(pl, slots, k) && ScanEdges(pl, slots).exitPoint == CutEdge(pl, slots[k].edge).point
    ensures (forall k :: !ExitsAt(pl, slots, k)) ==> ScanEdges(pl, slots).exitPoint == Zero
    decreases |slots|
  {
    if |slots| > 0 {
      var init := slots[..|slots| - 1];
      var last := |slots| - 1;
      ScanExitPoint(pl, init);
      assert forall k :: 0 <= k < last ==> (ExitsAt(pl, slots, k) <==> ExitsAt(pl, init, k));
      if ExitsAt(pl, slots, last) {
      } else if exists k :: ExitsAt(pl, slots, k) {
        var k :| ExitsAt(pl, slots, k);
        assert ExitsAt(pl, init, k);
      } else {
        assert forall k :: !ExitsAt(pl, init, k);
      }
    }
  }

  /** Likewise the entry point, for an edge that enters the front. */
  lemma {:induction false} ScanEntryPoint(pl: Plane, slots: seq<EdgeSlot>)
    ensures (exists k :: EntersAt(pl, slots, k)) ==>
              exists k :: EntersAt(pl, slots, k) && ScanEdges(pl, slots).entryPoint == CutEdge(pl, slots[k].edge).point
    ensures (forall k :: !EntersAt(pl, slots, k)) ==> ScanEdges(pl, slots).entryPoint == Zero
    decreases |slots|
  {
    if |slots| > 0 {
      var init := slots[..|slots| - 1];
      var last := |slots| - 1;
      ScanEntryPoint(pl, init);
      assert forall k :: 0 <= k < last ==> (EntersAt(pl, slots, k) <==> EntersAt(pl, init, k));
      if EntersAt(pl, slots, last) {
      } else if exists k :: EntersAt(pl, slots, k) {
        var k :| EntersAt(pl, slots, k);
        assert EntersAt(pl, init, k);
      } else {
        assert forall k :: !EntersAt(pl, init, k);
      }
    }
  }

  /** A plane pass adds edges only when exactly two live edges straddled the
      plane: their front parts and then the closing edge (exit point, entry point). */
  lemma AppendedCases(pl: Plane, slots: seq<EdgeSlot>)
    ensures var r := ScanEdges(pl, slots);
            && (r.crossings == 2 <==> |Appended(pl, slots)| == 3)
            && (r.crossings != 2 <==> Appended(pl, slots) == [])
            && (r.crossings == 2 ==> Appended(pl, slots)[2] == Edge(r.exitPoint, r.entryPoint)
                                     && Appended(pl, slots)[..2] == r.pieces)
  {
  }

  /** Every live edge has both endpoints in front of every plane of planes. */
  ghost predicate LiveEdgesInFront(planes: seq<Plane>, slots: seq<EdgeSlot>)
  {
    forall k, i :: 0 <= k < |slots| && slots[k].live && 0 <= i < |planes| ==> EdgeInFront(planes[i], slots[k].edge)
  }

  /** When two edges straddle pl, one of them leaves the front and the other
      enters it again (as for a closed, consistently oriented convex loop). */
  ghost predicate Balanced(pl: Plane, slots: seq<EdgeSlot>)
  {
    ScanEdges(pl, slots).crossings == 2 ==> (exists k :: ExitsAt(pl, slots, k)) && (exists k :: EntersAt(pl, slots, k))
  }

  /** The closing edge of a balanced pass lies on the plane and in front of
      every plane the live edges were in front of. */
  lemma ClosingInFront(done: seq<Plane>, pl: Plane, slots: seq<EdgeSlot>)
    requires LiveEdgesInFront(done, slots) && Balanced(pl, slots) && ScanEdges(pl, slots).crossings == 2
    ensures var r := ScanEdges(pl, slots);
            && SignedDistance(pl, r.exitPoint) == 0.0 && SignedDistance(pl, r.entryPoint) == 0.0
            && forall i :: 0 <= i < |done| ==> EdgeInFront(done[i], Edge(r.exitPoint, r.entryPoint))
  {
    ScanExitPoint(pl, slots);
    ScanEntryPoint(pl, slots);
    var r := ScanEdges(pl, slots);
    var kx :| ExitsAt(pl, slots, kx) && r.exitPoint == CutEdge(pl, slots[kx].edge).point;
    var ke :| EntersAt(pl, slots, ke) && r.entryPoint == CutEdge(pl, slots[ke].edge).point;
    CutEdgeCases(pl, slots[kx].edge);
    CutEdgeCases(pl, slots[ke].edge);
    forall i | 0 <= i < |done| ensures EdgeInFront(done[i], Edge(r.exitPoint, r.entryPoint)) {
      CutKeepsFront(pl, done[i], slots[kx].edge);
      CutKeepsFront(pl, done[i], slots[ke].edge);
    }
  }

  /** A balanced plane pass keeps every live edge in front of the planes
      already passed, and puts it in front of the new plane. */
  lemma EdgeStepInFront(done: seq<Plane>, pl: Plane, slots: seq<EdgeSlot>)
    requires LiveEdgesInFront(done, slots) && Balanced(pl, slots)
    ensures LiveEdgesInFront(done + [pl], EdgeStep(pl, slots))
  {
    var next := EdgeStep(pl, slots);
    var all := done + [pl];
    var r := ScanEdges(pl, slots);
    var added := Appended(pl, slots);
    if r.crossings == 2 {
      ClosingInFront(done, pl, slots);
    }
    forall k, i | 0 <= k < |next| && next[k].live && 0 <= i < |all| ensures EdgeInFront(all[i], next[k].edge) {
      if k < |slots| {
        assert next[k] == MarkEdge(pl, slots[k]);
      } else {
        var e := added[k - |slots|];
        assert next[k].edge == e;
        if k - |slots| < |r.pieces| {
          assert e in r.pieces;
          ScanPieces(pl, slots, e);
          var m :| 0 <= m < |slots| && slots[m].live && CutEdge(pl, slots[m].edge).EdgeCross?
                   && e == CutEdge(pl, slots[m].edge).piece;
          if i < |done| {
            CutKeepsFront(pl, all[i], slots[m].edge);
          }
        } else {
          assert e == Edge(r.exitPoint, r.entryPoint);
        }
      }
    }
  }

  /** Every pass of a clip over planes is balanced. */
  ghost predicate BalancedPasses(planes: seq<Plane>, slots: seq<EdgeSlot>)
    decreases |planes|
  {
    |planes| == 0
    || (Balanced(planes[0], slots)
        && var next := EdgeStep(planes[0], slots);
           2 * |next| <= SliceSize ==> BalancedPasses(planes[1..], next))
  }

  /** When every pass is balanced, every surviving edge is in front of every
      plane clipped against. */
  lemma {:induction false} ClipEdgesInFront(done: seq<Plane>, planes: seq<Plane>, slots: seq<EdgeSlot>)
    requires LiveEdgesInFront(done, slots) && BalancedPasses(planes, slots)
    ensures ClipEdges(planes, slots).Some? ==> LiveEdgesInFront(done + planes, ClipEdges(planes, slots).value)
    decreases |planes|
  {
    if |planes| == 0 {
      assert done + planes == done;
    } else if ClipEdges(planes, slots).Some? {
      EdgeStepInFront(done, planes[0], slots);
      ClipEdgesInFront(done + [planes[0]], planes[1..], EdgeStep(planes[0], slots));
      assert [planes[0]] + planes[1..] == planes;
      ConcatAssoc(done, [planes[0]], planes[1..]);
    }
  }

  // ---------------------------------------------------------------------------
  // Closed edge loops

  /** The start points of the live edges. */
  function Starts(slots: seq<EdgeSlot>): multiset<Vec3>
  {
    if |slots| == 0 then multiset{}
    else Starts(slots[..|slots| - 1]) + (if slots[|slots| - 1].live then multiset{slots[|slots| - 1].edge.p1} else multiset{})
  }

  /** The end points of the live edges. */
  function Ends(slots: seq<EdgeSlot>): multiset<Vec3>
  {
    if |slots| == 0 then multiset{}
    else Ends(slots[..|slots| - 1]) + (if slots[|slots| - 1].live then multiset{slots[|slots| - 1].edge.p2} else multiset{})
  }

  /** The live edges form closed loops: every point starts as many live edges
      as end at it (as the edges of a closed polygon outline do). */
  ghost predicate ClosedLoop(slots: seq<EdgeSlot>)
  {
    Starts(slots) == Ends(slots)
  }

  /** The start points in front of pl, of the live edges. */
  function FrontStarts(pl: Plane, slots: seq<EdgeSlot>): multiset<Vec3>
  {
    if |slots| == 0 then multiset{}
    else
      var s := slots[|slots| - 1];
      FrontStarts(pl, slots[..|slots| - 1]) + (if s.live && InFront(pl, s.edge.p1) then multiset{s.edge.p1} else multiset{})
  }

  /** The end points in front of pl, of the live edges. */
  function FrontEnds(pl: Plane, slots: seq<EdgeSlot>): multiset<Vec3>
  {
    if |slots| == 0 then multiset{}
    else
      var s := slots[|slots| - 1];
      FrontEnds(pl, slots[..|slots| - 1]) + (if s.live && InFront(pl, s.edge.p2) then multiset{s.edge.p2} else multiset{})
  }

  /** The crossing points of the live edges that leave the front of pl. */
  function ExitPoints(pl: Plane, slots: seq<EdgeSlot>): multiset<Vec3>
  {
    if |slots| == 0 then multiset{}
    else
      var s := slots[|slots| - 1];
      var c := CutEdge(pl, s.edge);
      ExitPoints(pl, slots[..|slots| - 1]) + (if s.live && c.EdgeCross? && c.exits then multiset{c.point} else multiset{})
  }

  /** The crossing points of the live edges that enter the front of pl. */
  function EntryPoints(pl: Plane, slots: seq<EdgeSlot>): multiset<Vec3>
  {
    if |slots| == 0 then multiset{}
    else
      var s := slots[|slots| - 1];
      var c := CutEdge(pl, s.edge);
      EntryPoints(pl, slots[..|slots| - 1]) + (if s.live && c.EdgeCross? && !c.exits then multiset{c.point} else multiset{})
  }

  lemma {:induction false} StartsEndsSize(slots: seq<EdgeSlot>)
    ensures |Starts(slots)| == |Ends(slots)|
    decreases |slots|
  {
    if |slots| > 0 {
      StartsEndsSize(slots[..|slots| - 1]);
    }
  }

  lemma {:induction false} StartsAppend(a: seq<EdgeSlot>, b: seq<EdgeSlot>)
    ensures Starts(a + b) == Starts(a) + Starts(b) && Ends(a + b) == Ends(a) + Ends(b)
    decreases |b|
  {
    if |b| > 0 {
      var init := b[..|b| - 1];
      assert (a + b)[..|a + b| - 1] == a + init;
      assert (a + b)[|a + b| - 1] == b[|b| - 1];
      StartsAppend(a, init);
      forall p ensures Starts(a + b)[p] == (Starts(a) + Starts(b))[p] && Ends(a + b)[p] == (Ends(a) + Ends(b))[p] {
      }
    } else {
      assert a + b == a;
    }
  }

  /** The front start and end points are the start and end points that lie in front. */
  lemma {:induction false} FrontFilter(pl: Plane, slots: seq<EdgeSlot>, p: Vec3)
    ensures FrontStarts(pl, slots)[p] == if InFront(pl, p) then Starts(slots)[p] else 0
    ensures FrontEnds(pl, slots)[p] == if InFront(pl, p) then Ends(slots)[p] else 0
    decreases |slots|
  {
    if |slots| > 0 {
      FrontFilter(pl, slots[..|slots| - 1], p);
    }
  }

  /** The scan meets as many edges as there are exit and entry points. */
  lemma {:induction false} CrossingCount(pl: Plane, slots: seq<EdgeSlot>)
    ensures ScanEdges(pl, slots).crossings == |ExitPoints(pl, slots)| + |EntryPoints(pl, slots)|
    decreases |slots|
  {
    if |slots| > 0 {
      CrossingCount(pl, slots[..|slots| - 1]);
    }
  }

  /** With a single exit, the scan's exit point is its crossing point. */
  lemma {:induction false} SingleExit(pl: Plane, slots: seq<EdgeSlot>)
    ensures |ExitPoints(pl, slots)| == 1 ==> ExitPoints(pl, slots) == multiset{ScanEdges(pl, slots).exitPoint}
    decreases |slots|
  {
    if |slots| > 0 {
      SingleExit(pl, slots[..|slots| - 1]);
    }
  }

  /** With a single entry, the scan's entry point is its crossing point. */
  lemma {:induction false} SingleEntry(pl: Plane, slots: seq<EdgeSlot>)
    ensures |EntryPoints(pl, slots)| == 1 ==> EntryPoints(pl, slots) == multiset{ScanEdges(pl, slots).entryPoint}
    decreases |slots|
  {
    if |slots| > 0 {
      SingleEntry(pl, slots[..|slots| - 1]);
    }
  }

  /** An exit point comes from a slot whose edge leaves the front. */
  lemma {:induction false} SomeExit(pl: Plane, slots: seq<EdgeSlot>)
    ensures |ExitPoints(pl, slots)| > 0 ==> exists k :: ExitsAt(pl, slots, k)
    decreases |slots|
  {
    if |slots| > 0 {
      var init := slots[..|slots| - 1];
      SomeExit(pl, init);
      if |ExitPoints(pl, init)| > 0 {
        var k :| ExitsAt(pl, init, k);
        assert ExitsAt(pl, slots, k);
      } else if |ExitPoints(pl, slots)| > 0 {
        assert ExitsAt(pl, slots, |slots| - 1);
      }
    }
  }

  /** An entry point comes from a slot whose edge enters the front. */
  lemma {:induction false} SomeEntry(pl: Plane, slots: seq<EdgeSlot>)
    ensures |EntryPoints(pl, slots)| > 0 ==> exists k :: EntersAt(pl, slots, k)
    decreases |slots|
  {
    if |slots| > 0 {
      var init := slots[..|slots| - 1];
      SomeEntry(pl, init);
      if |EntryPoints(pl, init)| > 0 {
        var k :| EntersAt(pl, init, k);
        assert EntersAt(pl, slots, k);
      } else if |EntryPoints(pl, slots)| > 0 {
        assert EntersAt(pl, slots, |slots| - 1);
      }
    }
  }

  /** The slots of a plane pass, one more at a time: the marked slots and the
      fresh pieces grow by what the last slot gives. */
  lemma StepSnoc(pl: Plane, slots: seq<EdgeSlot>)
    requires |slots| > 0
    ensures var init, s := slots[..|slots| - 1], slots[|slots| - 1];
            && Starts(MarkedEdges(pl, slots)) == Starts(MarkedEdges(pl, init)) + Starts([MarkEdge(pl, s)])
            && Ends(MarkedEdges(pl, slots)) == Ends(MarkedEdges(pl, init)) + Ends([MarkEdge(pl, s)])
            && (var grown, pieces0 := FreshEdges(ScanEdges(pl, slots).pieces), FreshEdges(ScanEdges(pl, init).pieces);
                if s.live && CutEdge(pl, s.edge).EdgeCross? then
                  && Starts(grown) == Starts(pieces0) + multiset{CutEdge(pl, s.edge).piece.p1}
                  && Ends(grown) == Ends(pieces0) + multiset{CutEdge(pl, s.edge).piece.p2}
                else grown == pieces0)
  {
    var init, s := slots[..|slots| - 1], slots[|slots| - 1];
    assert MarkedEdges(pl, slots) == MarkedEdges(pl, init) + [MarkEdge(pl, s)];
    StartsAppend(MarkedEdges(pl, init), [MarkEdge(pl, s)]);
    var r0 := ScanEdges(pl, init);
    if s.live && CutEdge(pl, s.edge).EdgeCross? {
      var piece := CutEdge(pl, s.edge).piece;
      assert FreshEdges(r0.pieces + [piece]) == FreshEdges(r0.pieces) + [EdgeSlot(piece, true)];
      StartsAppend(FreshEdges(r0.pieces), [EdgeSlot(piece, true)]);
      assert [EdgeSlot(piece, true)][..0] == [];
    }
  }

  /** Adding matching parts to both sides of an equation between unions. */
  lemma Regroup(a: multiset<Vec3>, x: multiset<Vec3>, b: multiset<Vec3>, y: multiset<Vec3>,
                c: multiset<Vec3>, u: multiset<Vec3>, d: multiset<Vec3>, v: multiset<Vec3>)
    requires a + b == c + d && x + y == u + v
    ensures (a + x) + (b + y) == (c + u) + (d + v)
  {
    forall p ensures ((a + x) + (b + y))[p] == ((c + u) + (d + v))[p] {
      assert (a + b)[p] == (c + d)[p] && (x + y)[p] == (u + v)[p];
    }
  }

  /** What one slot gives the start points of a pass: its marked slot and its
      front part start at its front start point and at its entry point. */
  lemma SlotStarts(pl: Plane, s: EdgeSlot)
    ensures Starts([MarkEdge(pl, s)]) + (if s.live && CutEdge(pl, s.edge).EdgeCross? then multiset{CutEdge(pl, s.edge).piece.p1} else multiset{})
         == (if s.live && InFront(pl, s.edge.p1) then multiset{s.edge.p1} else multiset{})
            + (if s.live && CutEdge(pl, s.edge).EdgeCross? && !CutEdge(pl, s.edge).exits then multiset{CutEdge(pl, s.edge).point} else multiset{})
  {
    assert [MarkEdge(pl, s)][..0] == [];
    CutEdgeCases(pl, s.edge);
  }

  /** What one slot gives the end points of a pass. */
  lemma SlotEnds(pl: Plane, s: EdgeSlot)
    ensures Ends([MarkEdge(pl, s)]) + (if s.live && CutEdge(pl, s.edge).EdgeCross? then multiset{CutEdge(pl, s.edge).piece.p2} else multiset{})
         == (if s.live && InFront(pl, s.edge.p2) then multiset{s.edge.p2} else multiset{})
            + (if s.live && CutEdge(pl, s.edge).EdgeCross? && CutEdge(pl, s.edge).exits then multiset{CutEdge(pl, s.edge).point} else multiset{})
  {
    assert [MarkEdge(pl, s)][..0] == [];
    CutEdgeCases(pl, s.edge);
  }

  /** One plane pass splits the live edges: the marked slots and the front
      parts of the crossing edges start at the front start points and at the
      entry points. */
  lemma {:induction false} StepStarts(pl: Plane, slots: seq<EdgeSlot>)
    ensures Starts(MarkedEdges(pl, slots)) + Starts(FreshEdges(ScanEdges(pl, slots).pieces))
         == FrontStarts(pl, slots) + EntryPoints(pl, slots)
    decreases |slots|
  {
    if |slots| > 0 {
      var init, s := slots[..|slots| - 1], slots[|slots| - 1];
      StepStarts(pl, init);
      StepSnoc(pl, slots);
      SlotStarts(pl, s);
      Regroup(Starts(MarkedEdges(pl, init)), Starts([MarkEdge(pl, s)]),
              Starts(FreshEdges(ScanEdges(pl, init).pieces)),
              if s.live && CutEdge(pl, s.edge).EdgeCross? then multiset{CutEdge(pl, s.edge).piece.p1} else multiset{},
              FrontStarts(pl, init), if s.live && InFront(pl, s.edge.p1) then multiset{s.edge.p1} else multiset{},
              EntryPoints(pl, init),
              if s.live && CutEdge(pl, s.edge).EdgeCross? && !CutEdge(pl, s.edge).exits then multiset{CutEdge(pl, s.edge).point} else multiset{});
    }
  }

  /** Likewise the marked slots and the front parts end at the front end
      points and at the exit points. */
  lemma {:induction false} StepEnds(pl: Plane, slots: seq<EdgeSlot>)
    ensures Ends(MarkedEdges(pl, slots)) + Ends(FreshEdges(ScanEdges(pl, slots).pieces))
         == FrontEnds(pl, slots) + ExitPoints(pl, slots)
    decreases |slots|
  {
    if |slots| > 0 {
      var init, s := slots[..|slots| - 1], slots[|slots| - 1];
      StepEnds(pl, init);
      StepSnoc(pl, slots);
      SlotEnds(pl, s);
      Regroup(Ends(MarkedEdges(pl, init)), Ends([MarkEdge(pl, s)]),
              Ends(FreshEdges(ScanEdges(pl, init).pieces)),
              if s.live && CutEdge(pl, s.edge).EdgeCross? then multiset{CutEdge(pl, s.edge).piece.p2} else multiset{},
              FrontEnds(pl, init), if s.live && InFront(pl, s.edge.p2) then multiset{s.edge.p2} else multiset{},
              ExitPoints(pl, init),
              if s.live && CutEdge(pl, s.edge).EdgeCross? && CutEdge(pl, s.edge).exits then multiset{CutEdge(pl, s.edge).point} else multiset{});
    }
  }

  /** In a closed loop the start and end points in front of a plane agree. */
  lemma FrontsAgree(pl: Plane, slots: seq<EdgeSlot>)
    requires ClosedLoop(slots)
    ensures FrontStarts(pl, slots) == FrontEnds(pl, slots)
  {
    forall p ensures FrontStarts(pl, slots)[p] == FrontEnds(pl, slots)[p] {
      FrontFilter(pl, slots, p);
    }
  }

  /** A closed loop crosses a plane as often from the front to the back as
      back again. */
  lemma ExitsMatchEntries(pl: Plane, slots: seq<EdgeSlot>)
    requires ClosedLoop(slots)
    ensures |ExitPoints(pl, slots)| == |EntryPoints(pl, slots)|
  {
    FrontsAgree(pl, slots);
    StepStarts(pl, slots);
    StepEnds(pl, slots);
    var marked, pieces := MarkedEdges(pl, slots), FreshEdges(ScanEdges(pl, slots).pieces);
    StartsEndsSize(marked);
    StartsEndsSize(pieces);
    assert |Starts(marked) + Starts(pieces)| == |Ends(marked) + Ends(pieces)|;
  }

  /** So a pass with two crossings over a closed loop is balanced. */
  lemma ClosedBalanced(pl: Plane, slots: seq<EdgeSlot>)
    requires ClosedLoop(slots)
    ensures Balanced(pl, slots)
  {
    ExitsMatchEntries(pl, slots);
    CrossingCount(pl, slots);
    SomeExit(pl, slots);
    SomeEntry(pl, slots);
  }

  /** A pass that cuts at most two edges of a closed loop leaves a closed
      loop: with no cut only the edges in front stay; with two cuts the two
      front parts and the closing edge from the exit point to the entry point
      take the place of the parts behind the plane. */
  lemma EdgeStepClosed(pl: Plane, slots: seq<EdgeSlot>)
    requires ClosedLoop(slots) && ScanEdges(pl, slots).crossings <= 2
    ensures ClosedLoop(EdgeStep(pl, slots))
  {
    ExitsMatchEntries(pl, slots);
    CrossingCount(pl, slots);
    FrontsAgree(pl, slots);
    StepStarts(pl, slots);
    StepEnds(pl, slots);
    if ScanEdges(pl, slots).crossings == 2 {
      ClosedTwoCuts(pl, slots);
    } else {
      ClosedNoCut(pl, slots);
    }
  }

  lemma ClosedNoCut(pl: Plane, slots: seq<EdgeSlot>)
    requires ScanEdges(pl, slots).crossings == 0
    requires FrontStarts(pl, slots) == FrontEnds(pl, slots)
    requires Starts(MarkedEdges(pl, slots)) + Starts(FreshEdges(ScanEdges(pl, slots).pieces))
          == FrontStarts(pl, slots) + EntryPoints(pl, slots)
    requires Ends(MarkedEdges(pl, slots)) + Ends(FreshEdges(ScanEdges(pl, slots).pieces))
          == FrontEnds(pl, slots) + ExitPoints(pl, slots)
    requires ScanEdges(pl, slots).crossings == |ExitPoints(pl, slots)| + |EntryPoints(pl, slots)|
    ensures ClosedLoop(EdgeStep(pl, slots))
  {
    var marked := MarkedEdges(pl, slots);
    assert ScanEdges(pl, slots).pieces == [] && Appended(pl, slots) == [];
    assert EdgeStep(pl, slots) == marked;
    assert Starts(FreshEdges([])) == multiset{} && Ends(FreshEdges([])) == multiset{};
    assert ExitPoints(pl, slots) == multiset{} && EntryPoints(pl, slots) == multiset{};
    assert Starts(marked) + multiset{} == Starts(marked);
    assert Ends(marked) + multiset{} == Ends(marked);
  }

  lemma ClosedTwoCuts(pl: Plane, slots: seq<EdgeSlot>)
    requires ScanEdges(pl, slots).crossings == 2 && |ExitPoints(pl, slots)| == |EntryPoints(pl, slots)|
    requires FrontStarts(pl, slots) == FrontEnds(pl, slots)
    requires Starts(MarkedEdges(pl, slots)) + Starts(FreshEdges(ScanEdges(pl, slots).pieces))
          == FrontStarts(pl, slots) + EntryPoints(pl, slots)
    requires Ends(MarkedEdges(pl, slots)) + Ends(FreshEdges(ScanEdges(pl, slots).pieces))
          == FrontEnds(pl, slots) + ExitPoints(pl, slots)
    requires ScanEdges(pl, slots).crossings == |ExitPoints(pl, slots)| + |EntryPoints(pl, slots)|
    ensures ClosedLoop(EdgeStep(pl, slots))
  {
    var r := ScanEdges(pl, slots);
    SingleExit(pl, slots);
    SingleEntry(pl, slots);
    var marked, pieces := MarkedEdges(pl, slots), FreshEdges(r.pieces);
    var closing := EdgeSlot(Edge(r.exitPoint, r.entryPoint), true);
    assert FreshEdges(r.pieces + [closing.edge]) == pieces + [closing];
    assert EdgeStep(pl, slots) == marked + (pieces + [closing]);
    StartsAppend(pieces, [closing]);
    StartsAppend(marked, pieces + [closing]);
    assert [closing][..0] == [];
    assert Starts([closing]) == multiset{r.exitPoint} && Ends([closing]) == multiset{r.entryPoint};
    CloseUp(Starts(marked), Starts(pieces), Ends(marked), Ends(pieces), FrontStarts(pl, slots), FrontEnds(pl, slots),
            r.exitPoint, r.entryPoint);
  }

  /** The point count behind a closing edge: when the old parts start at the
      front points and E and end at the same front points and X, adding an
      edge from X to E balances them. */
  lemma CloseUp(sm: multiset<Vec3>, sp: multiset<Vec3>, em: multiset<Vec3>, ep: multiset<Vec3>,
                fs: multiset<Vec3>, fe: multiset<Vec3>, x: Vec3, e: Vec3)
    requires sm + sp == fs + multiset{e} && em + ep == fe + multiset{x} && fs == fe
    ensures sm + (sp + multiset{x}) == em + (ep + multiset{e})
  {
    forall p ensures (sm + (sp + multiset{x}))[p] == (em + (ep + multiset{e}))[p] {
      assert (sm + sp)[p] == (fs + multiset{e})[p] && (em + ep)[p] == (fe + multiset{x})[p];
    }
  }

  /** Every pass of a clip over planes cuts at most two live edges, as a
      plane cuts the outline of a convex polygon. */
  ghost predicate FewCrossings(planes: seq<Plane>, slots: seq<EdgeSlot>)
    decreases |planes|
  {
    |planes| == 0
    || (ScanEdges(planes[0], slots).crossings <= 2
        && var next := EdgeStep(planes[0], slots);
           2 * |next| <= SliceSize ==> FewCrossings(planes[1..], next))
  }

  /** Clipping a closed loop whose passes each cut at most two edges is
      balanced at every pass. */
  lemma {:induction false} ClosedPassesBalanced(planes: seq<Plane>, slots: seq<EdgeSlot>)
    requires ClosedLoop(slots) && FewCrossings(planes, slots)
    ensures BalancedPasses(planes, slots)
    decreases |planes|
  {
    if |planes| > 0 {
      ClosedBalanced(planes[0], slots);
      var next := EdgeStep(planes[0], slots);
      if 2 * |next| <= SliceSize {
        EdgeStepClosed(planes[0], slots);
        ClosedPassesBalanced(planes[1..], next);
      }
    }
  }

  function StartPoints(es: seq<Edge>): (ps: seq<Vec3>)
    ensures |ps| == |es| && forall k :: 0 <= k < |es| ==> ps[k] == es[k].p1
  {
    seq(|es|, k requires 0 <= k < |es| => es[k].p1)
  }

  function EndPoints(es: seq<Edge>): (ps: seq<Vec3>)
    ensures |ps| == |es| && forall k :: 0 <= k < |es| ==> ps[k] == es[k].p2
  {
    seq(|es|, k requires 0 <= k < |es| => es[k].p2)
  }

  /** Loaded as live slots, an outline starts its live edges at its start points. */
  lemma {:induction false} FreshStarts(es: seq<Edge>)
    ensures Starts(FreshEdges(es)) == multiset(StartPoints(es))
    decreases |es|
  {
    if |es| > 0 {
      var init := es[..|es| - 1];
      FreshStarts(init);
      assert FreshEdges(es)[..|es| - 1] == FreshEdges(init);
      assert StartPoints(es) == StartPoints(init) + [es[|es| - 1].p1];
    }
  }

  /** Loaded as live slots, an outline ends its live edges at its end points. */
  lemma {:induction false} FreshEnds(es: seq<Edge>)
    ensures Ends(FreshEdges(es)) == multiset(EndPoints(es))
    decreases |es|
  {
    if |es| > 0 {
      var init := es[..|es| - 1];
      FreshEnds(init);
      assert FreshEdges(es)[..|es| - 1] == FreshEdges(init);
      assert EndPoints(es) == EndPoints(init) + [es[|es| - 1].p2];
    }
  }

  /** Each edge ends where the next one starts, and the last one ends where
      the first one starts: the end points are the start points rotated by one. */
  predicate Chained(es: seq<Edge>)
  {
    |es| == 0 || EndPoints(es) == StartPoints(es)[1..] + [StartPoints(es)[0]]
  }

  /** A chained outline, loaded as live slots, is a closed loop. */
  lemma ChainedClosed(es: seq<Edge>)
    requires Chained(es)
    ensures ClosedLoop(FreshEdges(es))
  {
    FreshStarts(es);
    FreshEnds(es);
    if |es| > 0 {
      var ps := StartPoints(es);
      assert ps == [ps[0]] + ps[1..];
      assert multiset(ps[1..] + [ps[0]]) == multiset(ps[1..]) + multiset([ps[0]]);
      assert multiset(ps) == multiset([ps[0]]) + multiset(ps[1..]);
    }
  }

  /** The edge loop of a portal whose index range is chained in the edge
      table is chained. */
  lemma PortalEdgesChained(level: Level, q: PortalMeta)
    requires WellFormed(level) && LoopChained(level.edges, q.edgeStartIndex, q.edgeCount)
    ensures Chained(PortalEdges(level, q))
  {
    var es := PortalEdges(level, q);
    var n := |es|;
    var ps := StartPoints(es);
    forall k | 0 <= k < n ensures EndPoints(es)[k] == (ps[1..] + [ps[0]])[k] {
      var next := if k + 1 < n then k + 1 else 0;
      NextIndex(k, n);
      assert EdgeEnd(level.edges, q.edgeStartIndex, k) == EdgeStart(level.edges, q.edgeStartIndex, next);
      assert es[k].p2 == level.vertices[EdgeEnd(level.edges, q.edgeStartIndex, k)];
      assert es[next].p1 == level.vertices[EdgeStart(level.edges, q.edgeStartIndex, next)];
      assert (ps[1..] + [ps[0]])[k] == ps[next];
    }
  }

  lemma NextIndex(k: int, n: int)
    requires 0 <= k < n
    ensures (k + 1) % n == if k + 1 < n then k + 1 else 0
  {
  }

  /** Clipping the edge loop of a portal whose index range is chained, with
      every pass cutting at most two edges: every surviving edge lies in front
      of every plane of the portal's plane range. */
  lemma ClipPortalEdgesInFront(level: Level, frustums: seq<Plane>, q: PortalMeta)
    requires WellFormed(level) && PortalOk(level, frustums, q)
    requires LoopChained(level.edges, q.edgeStartIndex, q.edgeCount)
    requires FewCrossings(PortalPlanes(frustums, q), FreshEdges(PortalEdges(level, q)))
    ensures var clipped := ClipEdges(PortalPlanes(frustums, q), FreshEdges(PortalEdges(level, q)));
            clipped.Some? ==> LiveEdgesInFront(PortalPlanes(frustums, q), clipped.value)
  {
    var loaded := FreshEdges(PortalEdges(level, q));
    PortalEdgesChained(level, q);
    ChainedClosed(PortalEdges(level, q));
    ClosedPassesBalanced(PortalPlanes(frustums, q), loaded);
    ClipEdgesInFront([], PortalPlanes(frustums, q), loaded);
    assert [] + PortalPlanes(frustums, q) == PortalPlanes(frustums, q);
  }

  // ---------------------------------------------------------------------------
  // The narrowed frustum

  /** The normal of the plane through edge (p1, p2) and the viewer:
      cross(p1 - p2, point - p2). */
  function EdgeNormal(e: Edge, point: Vec3): Vec3
  {
    Cross(Sub(e.p1, e.p2), Sub(point, e.p2))
  }

  /** An edge whose normal is shorter than this gives no frustum plane. */
  const MinNormalLength: real := 0.01

  /** The frustum plane of an edge: the normal divided by its length, at the
      distance that puts p1 on the plane. */
  function EdgePlane(e: Edge, point: Vec3, magnitude: real): Plane
    requires magnitude > 0.0
  {
    var normalized := Scale(EdgeNormal(e, point), 1.0 / magnitude);
    Plane(normalized, -Dot(normalized, e.p1))
  }

  /** The frustum plane of an edge passes through both of its endpoints and
      through the viewer. */
  lemma EdgePlaneThrough(e: Edge, point: Vec3, magnitude: real)
    requires magnitude > 0.0
    ensures var pl := EdgePlane(e, point, magnitude);
            SignedDistance(pl, e.p1) == 0.0 && SignedDistance(pl, e.p2) == 0.0 && SignedDistance(pl, point) == 0.0
  {
    var a, b := Sub(e.p1, e.p2), Sub(point, e.p2);
    var s := 1.0 / magnitude;
    var n := Cross(a, b);
    var nz := Scale(n, s);
    CrossOrthogonal(a, b);
    DotScale(n, s, a);
    DotScale(n, s, b);
    DotSub(nz, e.p1, e.p2);
    DotSub(nz, point, e.p2);
  }

  predicate LongNormal(e: Edge, point: Vec3, length: Vec3 -> real)
  {
    length(EdgeNormal(e, point)) >= MinNormalLength
  }

  /** The frustum loop: one plane per edge whose normal is long enough, in edge
      order. The length of a vector (a square root) is the parameter `length`. */
  function FrustumPlanes(es: seq<Edge>, point: Vec3, length: Vec3 -> real): (planes: seq<Plane>)
    ensures |planes| <= |es|
  {
    if |es| == 0 then []
    else
      var e := es[|es| - 1];
      var m := length(EdgeNormal(e, point));
      FrustumPlanes(es[..|es| - 1], point, length) + (if m < MinNormalLength then [] else [EdgePlane(e, point, m)])
  }

  /** The number of frustum planes is the number of edges with a long enough normal. */
  lemma {:induction false} FrustumPlanesCount(es: seq<Edge>, point: Vec3, length: Vec3 -> real)
    ensures |FrustumPlanes(es, point, length)| == |set k | 0 <= k < |es| && LongNormal(es[k], point, length)|
  {
    if |es| > 0 {
      var init := es[..|es| - 1];
      FrustumPlanesCount(init, point, length);
      var before := set k | 0 <= k < |init| && LongNormal(init[k], point, length);
      var after := set k | 0 <= k < |es| && LongNormal(es[k], point, length);
      var last := if LongNormal(es[|es| - 1], point, length) then {|es| - 1} else {};
      forall k ensures k in after <==> k in before + last {
        if 0 <= k < |init| {
          assert es[k] == init[k];
        }
      }
      assert after == before + last;
      assert |after| == |before| + |last|;
    }
  }

  /** Every frustum plane is the plane of one of the edges with a long enough
      normal, so it passes through that edge's endpoints and the viewer. */
  lemma {:induction false} FrustumPlanesFrom(es: seq<Edge>, point: Vec3, length: Vec3 -> real, pl: Plane)
    requires pl in FrustumPlanes(es, point, length)
    ensures exists k :: 0 <= k < |es| && LongNormal(es[k], point, length)
                        && pl == EdgePlane(es[k], point, length(EdgeNormal(es[k], point)))
    ensures SignedDistance(pl, point) == 0.0
  {
    var init := es[..|es| - 1];
    if pl in FrustumPlanes(init, point, length) {
      FrustumPlanesFrom(init, point, length, pl);
      var k :| 0 <= k < |init| && LongNormal(init[k], point, length)
               && pl == EdgePlane(init[k], point, length(EdgeNormal(init[k], point)));
      assert es[k] == init[k];
    } else {
      var e := es[|es| - 1];
      EdgePlaneThrough(e, point, length(EdgeNormal(e, point)));
    }
  }

  // ---------------------------------------------------------------------------
  // One portal item

  /** The outcome of one portal item: the connected sector enqueued with its
      frustum planes, the portal rejected as degenerate, or a scratch overflow. */
  datatype PortalResult = Enqueue(sector: SectorMeta, planes: seq<Plane>) | Rejected | Overflow

  predicate PortalOk(level: Level, frustums: seq<Plane>, q: PortalMeta)
  {
    && 0 <= q.edgeStartIndex && 0 <= q.edgeCount && q.edgeCount % 2 == 0
    && q.edgeStartIndex + q.edgeCount <= |level.edges|
    && 0 <= q.connectedSectorId < |level.sectors|
    && 0 <= q.planeStartIndex && 0 <= q.planeCount && q.planeStartIndex + q.planeCount <= |frustums|
  }

  /** The number of edges of a portal's edge loop. */
  function EdgeCount(q: PortalMeta): (n: nat)
    requires 0 <= q.edgeCount && q.edgeCount % 2 == 0
    ensures 2 * n == q.edgeCount
  {
    q.edgeCount / 2
  }

  /** The edge loop of a portal, read from the edge table: edge k joins the
      vertices of entries start + 2k and start + 2k + 1. */
  function PortalEdges(level: Level, q: PortalMeta): (es: seq<Edge>)
    requires WellFormed(level) && 0 <= q.edgeStartIndex && 0 <= q.edgeCount && q.edgeCount % 2 == 0
    requires q.edgeStartIndex + q.edgeCount <= |level.edges|
    ensures |es| == EdgeCount(q)
    ensures forall k :: 0 <= k < |es| ==>
              es[k] == Edge(level.vertices[level.edges[q.edgeStartIndex + 2 * k]], level.vertices[level.edges[q.edgeStartIndex + 2 * k + 1]])
  {
    seq(EdgeCount(q), k requires 0 <= k < EdgeCount(q) =>
      Edge(level.vertices[level.edges[q.edgeStartIndex + 2 * k]], level.vertices[level.edges[q.edgeStartIndex + 2 * k + 1]]))
  }

  function PortalPlanes(frustums: seq<Plane>, q: PortalMeta): seq<Plane>
    requires 0 <= q.planeStartIndex && 0 <= q.planeCount && q.planeStartIndex + q.planeCount <= |frustums|
  {
    frustums[q.planeStartIndex .. q.planeStartIndex + q.planeCount]
  }

  /** The sector record enqueued for a portal: the connected sector's polygon
      range, the plane range written at base, and the connected sector's index. */
  function Target(level: Level, q: PortalMeta, base: int, count: int): SectorMeta
    requires 0 <= q.connectedSectorId < |level.sectors|
  {
    var s := level.sectors[q.connectedSectorId];
    SectorMeta(s.polygonStartIndex, s.polygonCount, base, count, q.connectedSectorId)
  }

  /** ClipPortalsJob.Execute for the portal whose slice starts at base. With
      contact 0 the original four planes are forwarded; otherwise the edge loop
      is clipped against the portal's plane range, a loop of fewer than three
      surviving edges is rejected, and the rest give the narrowed frustum.
      An enqueued frustum has at most one plane per two entries of the slice,
      so it fits the slice it is written to, and the enqueued sector is the
      one behind the portal, its planes read from base. */
  function ClipPortal(level: Level, frustums: seq<Plane>, original: seq<Plane>, point: Vec3,
                      length: Vec3 -> real, q: PortalMeta, base: int): (r: PortalResult)
    requires WellFormed(level) && PortalOk(level, frustums, q) && |original| == 4
    ensures r.Enqueue? ==> 2 * |r.planes| <= SliceSize
    ensures r.Enqueue? ==> r.sector == Target(level, q, base, |r.planes|)
  {
    if q.portalContact == 0 then Enqueue(Target(level, q, base, |original|), original)
    else if q.edgeCount > SliceSize then Overflow
    else match ClipEdges(PortalPlanes(frustums, q), FreshEdges(PortalEdges(level, q)))
      case None => Overflow
      case Some(slots) =>
        ClipEdgesFits(PortalPlanes(frustums, q), FreshEdges(PortalEdges(level, q)));
        var outCount := 2 * |LiveEdges(slots)|;
        if outCount < 6 || outCount % 2 == 1 then Rejected
        else
          var planes := FrustumPlanes(LiveEdges(slots), point, length);
          Enqueue(Target(level, q, base, |planes|), planes)
  }

  /** With contact 0 the connected sector is enqueued with the original
      frustum and nothing is clipped. */
  lemma ClipPortalContact(level: Level, frustums: seq<Plane>, original: seq<Plane>, point: Vec3,
                          length: Vec3 -> real, q: PortalMeta, base: int)
    requires WellFormed(level) && PortalOk(level, frustums, q) && |original| == 4 && q.portalContact == 0
    ensures var r := ClipPortal(level, frustums, original, point, length, q, base);
            && r.Enqueue? && r.planes == original
            && r.sector.planeStartIndex == base && r.sector.planeCount == 4
            && r.sector.sectorId == q.connectedSectorId
            && r.sector.polygonStartIndex == level.sectors[q.connectedSectorId].polygonStartIndex
            && r.sector.polygonCount == level.sectors[q.connectedSectorId].polygonCount
  {
  }

  /** The odd-count guard never fires: the out-edge count is always even. */
  lemma ClipPortalRejected(level: Level, frustums: seq<Plane>, original: seq<Plane>, point: Vec3,
                           length: Vec3 -> real, q: PortalMeta, base: int)
    requires WellFormed(level) && PortalOk(level, frustums, q) && |original| == 4 && q.portalContact != 0
    ensures ClipPortal(level, frustums, original, point, length, q, base) == Rejected <==>
              && q.edgeCount <= SliceSize
              && ClipEdges(PortalPlanes(frustums, q), FreshEdges(PortalEdges(level, q))).Some?
              && |LiveEdges(ClipEdges(PortalPlanes(frustums, q), FreshEdges(PortalEdges(level, q))).value)| < 3
  {
  }

  /** A plane pass that fits the slice leaves the slots within it. */
  lemma {:induction false} ClipEdgesFits(planes: seq<Plane>, slots: seq<EdgeSlot>)
    requires 2 * |slots| <= SliceSize && ClipEdges(planes, slots).Some?
    ensures 2 * |ClipEdges(planes, slots).value| <= SliceSize
    decreases |planes|
  {
    if |planes| > 0 {
      ClipEdgesFits(planes[1..], EdgeStep(planes[0], slots));
    }
  }

  /** An enqueued sector of a clipped portal gets one plane per surviving edge
      with a long enough normal, each through the viewer, written at base. */
  lemma ClipPortalPlanes(level: Level, frustums: seq<Plane>, original: seq<Plane>, point: Vec3,
                         length: Vec3 -> real, q: PortalMeta, base: int)
    requires WellFormed(level) && PortalOk(level, frustums, q) && |original| == 4 && q.portalContact != 0
    ensures var r := ClipPortal(level, frustums, original, point, length, q, base);
            r.Enqueue? ==>
              var live := LiveEdges(ClipEdges(PortalPlanes(frustums, q), FreshEdges(PortalEdges(level, q))).value);
              && |live| >= 3
              && r.planes == FrustumPlanes(live, point, length)
              && r.sector == Target(level, q, base, |r.planes|)
              && |r.planes| == |set k | 0 <= k < |live| && LongNormal(live[k], point, length)|
              && forall pl :: pl in r.planes ==> SignedDistance(pl, point) == 0.0
  {
    var r := ClipPortal(level, frustums, original, point, length, q, base);
    if r.Enqueue? {
      var live := LiveEdges(ClipEdges(PortalPlanes(frustums, q), FreshEdges(PortalEdges(level, q))).value);
      FrustumPlanesCount(live, point, length);
      forall pl | pl in r.planes ensures SignedDistance(pl, point) == 0.0 {
        FrustumPlanesFrom(live, point, length, pl);
      }
    }
  }
}
