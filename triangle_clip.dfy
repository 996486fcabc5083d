/**
 * What ClipTrianglesJob computes, as values: the one-plane case analysis of a
 * triangle, the slot list of one source triangle's scratch slice with its
 * liveness flags, one plane pass over that list, and the pass over the whole
 * plane range. The scratch arrays themselves are in triangle_clip_job.dfy.
 */
module TriangleClip {
  import opened Geometry
  import opened Tables

  /** The outcome of clipping one triangle against one plane. */
  datatype Clip = Keep | Drop | Split(pieces: seq<Triangle>)

  predicate TriangleInFront(pl: Plane, t: Triangle)
  {
    InFront(pl, t.v0) && InFront(pl, t.v1) && InFront(pl, t.v2)
  }

  /** The case of exactly one vertex in front, rotated so that the front vertex
      comes first: the piece keeps it and the two crossing points. */
  function OneFront(pl: Plane, inV: Vec3, outV1: Vec3, outV2: Vec3, inUV: Vec3, outUV1: Vec3, outUV2: Vec3): Triangle
    requires SignedDistance(pl, inV) >= 0.0 > SignedDistance(pl, outV1)
    requires SignedDistance(pl, inV) >= 0.0 > SignedDistance(pl, outV2)
  {
    var inD := SignedDistance(pl, inV);
    var t1 := CrossingParameter(inD, SignedDistance(pl, outV1));
    var t2 := CrossingParameter(inD, SignedDistance(pl, outV2));
    Triangle(inV, Lerp(inV, outV1, t1), Lerp(inV, outV2, t2), inUV, Lerp(inUV, outUV1, t1), Lerp(inUV, outUV2, t2))
  }

  /** The case of exactly two vertices in front, rotated so that the back vertex
      comes first: the quad left in front is cut into two pieces. */
  function TwoFront(pl: Plane, outV: Vec3, inV1: Vec3, inV2: Vec3, outUV: Vec3, inUV1: Vec3, inUV2: Vec3): seq<Triangle>
    requires SignedDistance(pl, inV1) >= 0.0 > SignedDistance(pl, outV)
    requires SignedDistance(pl, inV2) >= 0.0 > SignedDistance(pl, outV)
  {
    var outD := SignedDistance(pl, outV);
    var t1 := CrossingParameter(SignedDistance(pl, inV1), outD);
    var t2 := CrossingParameter(SignedDistance(pl, inV2), outD);
    var vA, vB := Lerp(inV1, outV, t1), Lerp(inV2, outV, t2);
    var uvA, uvB := Lerp(inUV1, outUV, t1), Lerp(inUV2, outUV, t2);
    [Triangle(inV1, inV2, vA, inUV1, inUV2, uvA), Triangle(vA, inV2, vB, uvA, inUV2, uvB)]
  }

  /** The sign case analysis of the clipper for one triangle and one plane:
      untouched when all three vertices are in front, killed when none is, one
      piece led by the front vertex when one is, two pieces when two are. */
  function ClipTriangle(pl: Plane, t: Triangle): (r: Clip)
    ensures r == Keep <==> FrontCount(pl, t) == 3
    ensures r == Drop <==> FrontCount(pl, t) == 0
    ensures FrontCount(pl, t) == 1 ==>
              r.Split? && |r.pieces| == 1
              && InFront(pl, r.pieces[0].v0) && (r.pieces[0].v0 == t.v0 || r.pieces[0].v0 == t.v1 || r.pieces[0].v0 == t.v2)
    ensures FrontCount(pl, t) == 2 ==> r.Split? && |r.pieces| == 2
  {
    var b0, b1, b2 := InFront(pl, t.v0), InFront(pl, t.v1), InFront(pl, t.v2);
    if b0 && b1 && b2 then Keep
    else if (b0 && !b1 && !b2) || (!b0 && b1 && !b2) || (!b0 && !b1 && b2) then
      if b0 then Split([OneFront(pl, t.v0, t.v1, t.v2, t.uv0, t.uv1, t.uv2)])
      else if b1 then Split([OneFront(pl, t.v1, t.v2, t.v0, t.uv1, t.uv2, t.uv0)])
      else Split([OneFront(pl, t.v2, t.v0, t.v1, t.uv2, t.uv0, t.uv1)])
    else if (!b0 && b1 && b2) || (b0 && !b1 && b2) || (b0 && b1 && !b2) then
      if !b0 then Split(TwoFront(pl, t.v0, t.v1, t.v2, t.uv0, t.uv1, t.uv2))
      else if !b1 then Split(TwoFront(pl, t.v1, t.v2, t.v0, t.uv1, t.uv2, t.uv0))
      else Split(TwoFront(pl, t.v2, t.v0, t.v1, t.uv2, t.uv0, t.uv1))
    else Drop
  }

  function FrontCount(pl: Plane, t: Triangle): nat
  {
    (if InFront(pl, t.v0) then 1 else 0) + (if InFront(pl, t.v1) then 1 else 0) + (if InFront(pl, t.v2) then 1 else 0)
  }

  /** A crossing point of a front vertex a and a back vertex b, with the same
      interpolation parameter for the position and for the texture coordinate. */
  ghost predicate CrossingOf(pl: Plane, p: Vec3, uv: Vec3, a: Vec3, b: Vec3, uvA: Vec3, uvB: Vec3)
  {
    SignedDistance(pl, a) >= 0.0 > SignedDistance(pl, b)
    && exists t: real :: 0.0 <= t < 1.0 && t * (SignedDistance(pl, a) - SignedDistance(pl, b)) == SignedDistance(pl, a)
                         && p == Lerp(a, b, t) && uv == Lerp(uvA, uvB, t)
  }

  lemma CrossingOfParameter(pl: Plane, a: Vec3, b: Vec3, uvA: Vec3, uvB: Vec3)
    requires SignedDistance(pl, a) >= 0.0 > SignedDistance(pl, b)
    ensures var t := CrossingParameter(SignedDistance(pl, a), SignedDistance(pl, b));
            CrossingOf(pl, Lerp(a, b, t), Lerp(uvA, uvB, t), a, b, uvA, uvB)
  {
    var t := CrossingParameter(SignedDistance(pl, a), SignedDistance(pl, b));
    assert t * (SignedDistance(pl, a) - SignedDistance(pl, b)) == SignedDistance(pl, a);
  }

  /** Every vertex of a piece is a vertex of the triangle or a crossing point of
      one of its edges, interpolated in position and texture alike. */
  lemma PiecesInterpolate(pl: Plane, t: Triangle, p: Triangle)
    requires ClipTriangle(pl, t).Split? && p in ClipTriangle(pl, t).pieces
    ensures forall v, uv :: (v, uv) in [(p.v0, p.uv0), (p.v1, p.uv1), (p.v2, p.uv2)] ==>
              (v, uv) in [(t.v0, t.uv0), (t.v1, t.uv1), (t.v2, t.uv2)]
              || CrossingOf(pl, v, uv, t.v0, t.v1, t.uv0, t.uv1) || CrossingOf(pl, v, uv, t.v1, t.v0, t.uv1, t.uv0)
              || CrossingOf(pl, v, uv, t.v1, t.v2, t.uv1, t.uv2) || CrossingOf(pl, v, uv, t.v2, t.v1, t.uv2, t.uv1)
              || CrossingOf(pl, v, uv, t.v2, t.v0, t.uv2, t.uv0) || CrossingOf(pl, v, uv, t.v0, t.v2, t.uv0, t.uv2)
  {
    var d0, d1, d2 := SignedDistance(pl, t.v0), SignedDistance(pl, t.v1), SignedDistance(pl, t.v2);
    if d0 >= 0.0 > d1 { CrossingOfParameter(pl, t.v0, t.v1, t.uv0, t.uv1); }
    if d1 >= 0.0 > d0 { CrossingOfParameter(pl, t.v1, t.v0, t.uv1, t.uv0); }
    if d1 >= 0.0 > d2 { CrossingOfParameter(pl, t.v1, t.v2, t.uv1, t.uv2); }
    if d2 >= 0.0 > d1 { CrossingOfParameter(pl, t.v2, t.v1, t.uv2, t.uv1); }
    if d2 >= 0.0 > d0 { CrossingOfParameter(pl, t.v2, t.v0, t.uv2, t.uv0); }
    if d0 >= 0.0 > d2 { CrossingOfParameter(pl, t.v0, t.v2, t.uv0, t.uv2); }
  }

  /** Every vertex of every piece is in front of the clipping plane. */
  lemma PiecesInFront(pl: Plane, t: Triangle)
    ensures ClipTriangle(pl, t).Split? ==> forall p :: p in ClipTriangle(pl, t).pieces ==> TriangleInFront(pl, p)
  {
    var d0, d1, d2 := SignedDistance(pl, t.v0), SignedDistance(pl, t.v1), SignedDistance(pl, t.v2);
    if d0 >= 0.0 > d1 { CrossingPointOnPlane(pl, t.v0, t.v1); }
    if d0 >= 0.0 > d2 { CrossingPointOnPlane(pl, t.v0, t.v2); }
    if d1 >= 0.0 > d0 { CrossingPointOnPlane(pl, t.v1, t.v0); }
    if d1 >= 0.0 > d2 { CrossingPointOnPlane(pl, t.v1, t.v2); }
    if d2 >= 0.0 > d0 { CrossingPointOnPlane(pl, t.v2, t.v0); }
    if d2 >= 0.0 > d1 { CrossingPointOnPlane(pl, t.v2, t.v1); }
  }

  /** A piece of a triangle in front of another plane q is in front of q too:
      its vertices lie on the triangle's edges. */
  lemma PiecesKeepFront(pl: Plane, q: Plane, t: Triangle)
    requires TriangleInFront(q, t)
    ensures ClipTriangle(pl, t).Split? ==> forall p :: p in ClipTriangle(pl, t).pieces ==> TriangleInFront(q, p)
  {
    var d0, d1, d2 := SignedDistance(pl, t.v0), SignedDistance(pl, t.v1), SignedDistance(pl, t.v2);
    if d0 >= 0.0 > d1 { LerpKeepsFront(q, t.v0, t.v1, CrossingParameter(d0, d1)); }
    if d0 >= 0.0 > d2 { LerpKeepsFront(q, t.v0, t.v2, CrossingParameter(d0, d2)); }
    if d1 >= 0.0 > d0 { LerpKeepsFront(q, t.v1, t.v0, CrossingParameter(d1, d0)); }
    if d1 >= 0.0 > d2 { LerpKeepsFront(q, t.v1, t.v2, CrossingParameter(d1, d2)); }
    if d2 >= 0.0 > d0 { LerpKeepsFront(q, t.v2, t.v0, CrossingParameter(d2, d0)); }
    if d2 >= 0.0 > d1 { LerpKeepsFront(q, t.v2, t.v1, CrossingParameter(d2, d1)); }
  }

  // ---------------------------------------------------------------------------
  // The slot list of one scratch slice

  /** Three scratch vertices with their texture coordinates, and their liveness
      flag (the job sets the three flags of a slot together). */
  datatype Slot = Slot(tri: Triangle, live: bool)

  /** What one plane pass does to an existing slot: a live triangle that is
      not entirely in front is switched off. */
  function MarkSlot(pl: Plane, s: Slot): Slot
  {
    if s.live && !TriangleInFront(pl, s.tri) then Slot(s.tri, false) else s
  }

  /** The triangles one plane pass creates for a slot. */
  function SlotPieces(pl: Plane, s: Slot): seq<Triangle>
  {
    if s.live && !TriangleInFront(pl, s.tri) && ClipTriangle(pl, s.tri).Split? then ClipTriangle(pl, s.tri).pieces else []
  }

  function Marked(pl: Plane, slots: seq<Slot>): (r: seq<Slot>)
    ensures |r| == |slots| && forall k :: 0 <= k < |slots| ==> r[k] == MarkSlot(pl, slots[k])
  {
    seq(|slots|, k requires 0 <= k < |slots| => MarkSlot(pl, slots[k]))
  }

  /** The temporary list of one plane pass: the pieces of all slots, in slot order. */
  function Pieces(pl: Plane, slots: seq<Slot>): seq<Triangle>
  {
    if |slots| == 0 then [] else Pieces(pl, slots[..|slots| - 1]) + SlotPieces(pl, slots[|slots| - 1])
  }

  function FreshSlots(ts: seq<Triangle>): (r: seq<Slot>)
    ensures |r| == |ts| && forall j :: 0 <= j < |ts| ==> r[j] == Slot(ts[j], true)
  {
    seq(|ts|, j requires 0 <= j < |ts| => Slot(ts[j], true))
  }

  /** One plane pass: existing slots marked, the new pieces appended as live slots. */
  function PlaneStep(pl: Plane, slots: seq<Slot>): seq<Slot>
  {
    Marked(pl, slots) + FreshSlots(Pieces(pl, slots))
  }

  /** The living triangles of a slot list, in slot order (what the emit loop collects). */
  function Emitted(slots: seq<Slot>): seq<Triangle>
  {
    if |slots| == 0 then []
    else Emitted(slots[..|slots| - 1]) + (if slots[|slots| - 1].live then [slots[|slots| - 1].tri] else [])
  }

  /** The living triangles a plane leaves untouched, in slot order. */
  function Kept(pl: Plane, slots: seq<Slot>): seq<Triangle>
  {
    if |slots| == 0 then []
    else
      var s := slots[|slots| - 1];
      Kept(pl, slots[..|slots| - 1]) + (if s.live && TriangleInFront(pl, s.tri) then [s.tri] else [])
  }

  /** Passes over the plane list in order; None when a pass would write past
      the item's 256-vertex slice. */
  function ClipSlots(planes: seq<Plane>, slots: seq<Slot>): Option<seq<Slot>>
    decreases |planes|
  {
    if |planes| == 0 then Some(slots)
    else
      var next := PlaneStep(planes[0], slots);
      if 3 * |next| > SliceSize then None else ClipSlots(planes[1..], next)
  }

  /** Clips one source triangle against a plane list: its surviving pieces, or
      None on overflow. */
  function ClipSource(planes: seq<Plane>, t: Triangle): Option<seq<Triangle>>
  {
    match ClipSlots(planes, [Slot(t, true)])
    case None => None
    case Some(slots) => Some(Emitted(slots))
  }

  // ---------------------------------------------------------------------------
  // Properties of the slot semantics

  lemma {:induction false} EmittedAppend(a: seq<Slot>, b: seq<Slot>)
    ensures Emitted(a + b) == Emitted(a) + Emitted(b)
    decreases |b|
  {
    if |b| == 0 {
      assert a + b == a;
    } else {
      var b' := b[..|b| - 1];
      assert (a + b)[..|a + b| - 1] == a + b';
      EmittedAppend(a, b');
    }
  }

  lemma {:induction false} EmittedFresh(ts: seq<Triangle>)
    ensures Emitted(FreshSlots(ts)) == ts
    decreases |ts|
  {
    if |ts| > 0 {
      var ts' := ts[..|ts| - 1];
      assert FreshSlots(ts)[..|ts| - 1] == FreshSlots(ts');
      EmittedFresh(ts');
    }
  }

  lemma {:induction false} EmittedMarked(pl: Plane, slots: seq<Slot>)
    ensures Emitted(Marked(pl, slots)) == Kept(pl, slots)
    decreases |slots|
  {
    if |slots| > 0 {
      var init := slots[..|slots| - 1];
      assert Marked(pl, slots)[..|slots| - 1] == Marked(pl, init);
      EmittedMarked(pl, init);
    }
  }

  /** After a plane pass the living triangles are exactly the untouched
      all-front ones followed by the newly created ones. */
  lemma StepLiving(pl: Plane, slots: seq<Slot>)
    ensures Emitted(PlaneStep(pl, slots)) == Kept(pl, slots) + Pieces(pl, slots)
  {
    EmittedAppend(Marked(pl, slots), FreshSlots(Pieces(pl, slots)));
    EmittedMarked(pl, slots);
    EmittedFresh(Pieces(pl, slots));
  }

  /** Every living triangle has all its vertices in front of every plane of `planes`. */
  ghost predicate LiveInFront(planes: seq<Plane>, slots: seq<Slot>)
  {
    forall k, i :: 0 <= k < |slots| && slots[k].live && 0 <= i < |planes| ==> TriangleInFront(planes[i], slots[k].tri)
  }

  lemma {:induction false} PiecesFrom(pl: Plane, slots: seq<Slot>, p: Triangle)
    requires p in Pieces(pl, slots)
    ensures exists k :: 0 <= k < |slots| && slots[k].live && ClipTriangle(pl, slots[k].tri).Split?
                        && p in ClipTriangle(pl, slots[k].tri).pieces
    decreases |slots|
  {
    var init := slots[..|slots| - 1];
    if p in Pieces(pl, init) {
      PiecesFrom(pl, init, p);
      var k :| 0 <= k < |init| && init[k].live && ClipTriangle(pl, init[k].tri).Split?
               && p in ClipTriangle(pl, init[k].tri).pieces;
      assert slots[k] == init[k];
    }
  }

  /** A plane pass keeps every living triangle in front of the planes already
      passed, and puts it in front of the new plane. */
  lemma StepInFront(done: seq<Plane>, pl: Plane, slots: seq<Slot>)
    requires LiveInFront(done, slots)
    ensures LiveInFront(done + [pl], PlaneStep(pl, slots))
  {
    var next := PlaneStep(pl, slots);
    var all := done + [pl];
    var pieces := Pieces(pl, slots);
    forall k, i | 0 <= k < |next| && next[k].live && 0 <= i < |all| ensures TriangleInFront(all[i], next[k].tri) {
      if k < |slots| {
        if i == |done| {
          assert slots[k].live && ClipTriangle(pl, slots[k].tri) == Keep;
        }
      } else {
        var p := pieces[k - |slots|];
        assert next[k].tri == p;
        PiecesFrom(pl, slots, p);
        var m :| 0 <= m < |slots| && slots[m].live && ClipTriangle(pl, slots[m].tri).Split?
                 && p in ClipTriangle(pl, slots[m].tri).pieces;
        if i == |done| {
          PiecesInFront(pl, slots[m].tri);
        } else {
          PiecesKeepFront(pl, all[i], slots[m].tri);
        }
      }
    }
  }

  lemma {:induction false} ClipSlotsInFront(done: seq<Plane>, planes: seq<Plane>, slots: seq<Slot>)
    requires LiveInFront(done, slots)
    ensures ClipSlots(planes, slots).Some? ==> LiveInFront(done + planes, ClipSlots(planes, slots).value)
    decreases |planes|
  {
    if |planes| == 0 {
      assert done + planes == done;
    } else if ClipSlots(planes, slots).Some? {
      StepInFront(done, planes[0], slots);
      ClipSlotsInFront(done + [planes[0]], planes[1..], PlaneStep(planes[0], slots));
      assert [planes[0]] + planes[1..] == planes;
      ConcatAssoc(done, [planes[0]], planes[1..]);
    }
  }

  lemma {:induction false} EmittedLive(slots: seq<Slot>, t: Triangle)
    requires t in Emitted(slots)
    ensures exists k :: 0 <= k < |slots| && slots[k].live && slots[k].tri == t
    decreases |slots|
  {
    var init := slots[..|slots| - 1];
    if t in Emitted(init) {
      EmittedLive(init, t);
      var k :| 0 <= k < |init| && init[k].live && init[k].tri == t;
      assert slots[k] == init[k];
    }
  }

  /** Every triangle of ts lies in front of every plane of planes. */
  ghost predicate AllInFront(planes: seq<Plane>, ts: seq<Triangle>)
  {
    forall p, i :: p in ts && 0 <= i < |planes| ==> TriangleInFront(planes[i], p)
  }

  lemma AllInFrontAppend(planes: seq<Plane>, a: seq<Triangle>, b: seq<Triangle>)
    requires AllInFront(planes, a) && AllInFront(planes, b)
    ensures AllInFront(planes, a + b)
  {
  }

  /** Every triangle emitted for a source triangle lies in front of every plane
      of the range it was clipped against. */
  lemma ClipSourceInFront(planes: seq<Plane>, t: Triangle)
    ensures ClipSource(planes, t).Some? ==> AllInFront(planes, ClipSource(planes, t).value)
  {
    ClipSlotsInFront([], planes, [Slot(t, true)]);
    assert [] + planes == planes;
    if ClipSource(planes, t).Some? {
      var slots := ClipSlots(planes, [Slot(t, true)]).value;
      forall p, i | p in Emitted(slots) && 0 <= i < |planes| ensures TriangleInFront(planes[i], p) {
        EmittedLive(slots, p);
      }
    }
  }

  /** With no planes the source triangle is emitted unchanged. */
  lemma ClipSourceNoPlanes(t: Triangle)
    ensures ClipSource([], t) == Some([t])
  {
    var slots := [Slot(t, true)];
    assert ClipSlots([], slots) == Some(slots);
    assert slots[..0] == [];
    assert Emitted(slots) == Emitted([]) + [t];
    assert Emitted(slots) == [t];
    assert ClipSource([], t) == Some(Emitted(slots));
  }

  /** A source triangle entirely in front of every plane comes out unchanged. */
  lemma {:induction false} ClipSourceAllFront(planes: seq<Plane>, t: Triangle)
    requires forall i :: 0 <= i < |planes| ==> TriangleInFront(planes[i], t)
    ensures ClipSource(planes, t) == Some([t])
    decreases |planes|
  {
    if |planes| == 0 {
      ClipSourceNoPlanes(t);
    } else {
      assert Pieces(planes[0], [Slot(t, true)]) == Pieces(planes[0], []) + [];
      assert PlaneStep(planes[0], [Slot(t, true)]) == [Slot(t, true)];
      ClipSourceAllFront(planes[1..], t);
    }
  }
}
