/**
 * ClipTrianglesJob on its scratch arrays: every work item owns the 256-entry
 * slice starting at index * 256 of the process and temporary arrays; slot k of
 * a slice is entries 3k, 3k+1, 3k+2 with one liveness flag each. Every method
 * is proved against the slot semantics of triangle_clip.dfy.
 */
module TriangleClipJob {
  import opened Geometry
  import opened Tables
  import opened TriangleClip

  /** Triangle a (indices a, a+1, a+2 of the triangle table) of the level, with its texture coordinates. */
  function SourceTriangle(level: Level, a: int): Triangle
    requires WellFormed(level) && 0 <= a && a + 2 < |level.triangles|
  {
    var i0, i1, i2 := level.triangles[a], level.triangles[a + 1], level.triangles[a + 2];
    Triangle(level.vertices[i0], level.vertices[i1], level.vertices[i2],
             level.textures[i0], level.textures[i1], level.textures[i2])
  }

  /** The source pipeline only builds items whose triangle range lies in the
      triangle table and whose plane range lies in the frustum buffer. */
  predicate ItemOk(level: Level, frustums: seq<Plane>, tm: TrianglesMeta)
  {
    && 0 <= tm.triangleStartIndex && 0 <= tm.triangleCount && tm.triangleCount % 3 == 0
    && tm.triangleStartIndex + tm.triangleCount <= |level.triangles|
    && 0 <= tm.planeStartIndex && 0 <= tm.planeCount && tm.planeStartIndex + tm.planeCount <= |frustums|
  }

  function ItemPlanes(frustums: seq<Plane>, tm: TrianglesMeta): seq<Plane>
    requires 0 <= tm.planeStartIndex && 0 <= tm.planeCount && tm.planeStartIndex + tm.planeCount <= |frustums|
  {
    frustums[tm.planeStartIndex .. tm.planeStartIndex + tm.planeCount]
  }

  /** The triangles emitted so far, and false once a slice overflowed. */
  datatype Emission = Emission(out: seq<Triangle>, ok: bool)

  /** The number of source triangles of an item. */
  function SourceCount(tm: TrianglesMeta): (n: nat)
    requires 0 <= tm.triangleCount && tm.triangleCount % 3 == 0
    ensures 3 * n == tm.triangleCount
  {
    tm.triangleCount / 3
  }

  /** The source triangles of an item, in triangle-table order. */
  function ItemSources(level: Level, tm: TrianglesMeta): (ts: seq<Triangle>)
    requires WellFormed(level) && 0 <= tm.triangleStartIndex && 0 <= tm.triangleCount && tm.triangleCount % 3 == 0
    requires tm.triangleStartIndex + tm.triangleCount <= |level.triangles|
    ensures |ts| == SourceCount(tm)
    ensures forall k :: 0 <= k < |ts| ==> ts[k] == SourceTriangle(level, tm.triangleStartIndex + 3 * k)
  {
    seq(SourceCount(tm), k requires 0 <= k < SourceCount(tm) => SourceTriangle(level, tm.triangleStartIndex + 3 * k))
  }

  /** The first n emissions one after the other, stopping after the first
      that overflowed. */
  function Concat(es: seq<Emission>, n: nat): Emission
    requires n <= |es|
  {
    if n == 0 then Emission([], true)
    else
      var prev := Concat(es, n - 1);
      if !prev.ok then prev else Emission(prev.out + es[n - 1].out, es[n - 1].ok)
  }

  /** What clipping one source triangle contributes: its pieces, or an overflow. */
  function SourceEmission(r: Option<seq<Triangle>>): Emission
  {
    match r
    case Some(ts) => Emission(ts, true)
    case None => Emission([], false)
  }

  /** What each source triangle contributes when clipped against planes. */
  function SourceEmissions(planes: seq<Plane>, sources: seq<Triangle>): (es: seq<Emission>)
    ensures |es| == |sources|
  {
    seq(|sources|, k requires 0 <= k < |sources| => SourceEmission(ClipSource(planes, sources[k])))
  }

  lemma SourceEmissionAt(planes: seq<Plane>, sources: seq<Triangle>, k: nat)
    requires k < |sources|
    ensures SourceEmissions(planes, sources)[k] == SourceEmission(ClipSource(planes, sources[k]))
  {
  }

  /** es lists what each source triangle contributes. The quantifier fires
      only on ClipSource terms already present. */
  ghost predicate SourcesOf(planes: seq<Plane>, sources: seq<Triangle>, es: seq<Emission>)
  {
    && |es| == |sources|
    && forall k {:trigger ClipSource(planes, sources[k])} :: 0 <= k < |sources| ==>
         es[k] == SourceEmission(ClipSource(planes, sources[k]))
  }

  lemma SourcesOfEmissions(planes: seq<Plane>, sources: seq<Triangle>)
    ensures SourcesOf(planes, sources, SourceEmissions(planes, sources))
  {
    forall k | 0 <= k < |sources| {
      SourceEmissionAt(planes, sources, k);
    }
  }

  /** What one work item emits: its source triangles clipped in turn against
      its plane range. */
  function ItemClip(level: Level, frustums: seq<Plane>, tm: TrianglesMeta): Emission
    requires WellFormed(level) && ItemOk(level, frustums, tm)
  {
    var sources := ItemSources(level, tm);
    Concat(SourceEmissions(ItemPlanes(frustums, tm), sources), |sources|)
  }

  /** Any list of what the source triangles of an item contribute gives
      what the item emits. */
  lemma SourcesOfItem(level: Level, frustums: seq<Plane>, tm: TrianglesMeta, es: seq<Emission>)
    requires WellFormed(level) && ItemOk(level, frustums, tm)
    requires SourcesOf(ItemPlanes(frustums, tm), ItemSources(level, tm), es)
    ensures |es| == SourceCount(tm) && Concat(es, SourceCount(tm)) == ItemClip(level, frustums, tm)
  {
    var planes, sources := ItemPlanes(frustums, tm), ItemSources(level, tm);
    var all := SourceEmissions(planes, sources);
    forall k | 0 <= k < |sources| ensures es[k] == all[k] {
      SourceEmissionAt(planes, sources, k);
    }
    assert es == all;
  }

  /** What each work item emits. */
  function ItemEmissions(level: Level, frustums: seq<Plane>, items: seq<TrianglesMeta>): (es: seq<Emission>)
    requires WellFormed(level) && forall i :: 0 <= i < |items| ==> ItemOk(level, frustums, items[i])
    ensures |es| == |items|
    decreases |items|
  {
    if |items| == 0 then []
    else ItemEmissions(level, frustums, items[..|items| - 1]) + [ItemClip(level, frustums, items[|items| - 1])]
  }

  /** Emission i is what item i emits. */
  lemma {:induction false} ItemEmissionAt(level: Level, frustums: seq<Plane>, items: seq<TrianglesMeta>, i: nat)
    requires WellFormed(level) && forall i :: 0 <= i < |items| ==> ItemOk(level, frustums, items[i])
    requires i < |items|
    ensures ItemEmissions(level, frustums, items)[i] == ItemClip(level, frustums, items[i])
    decreases |items|
  {
    if i < |items| - 1 {
      var init := items[..|items| - 1];
      ItemEmissionAt(level, frustums, init, i);
      assert init[i] == items[i];
    }
  }

  /** es lists what each item emits. The quantifier fires only on ItemClip
      terms already present, which keeps the clip semantics out of proofs
      that only need the list. */
  ghost predicate EmissionsOf(level: Level, frustums: seq<Plane>, items: seq<TrianglesMeta>, es: seq<Emission>)
    requires WellFormed(level) && forall i :: 0 <= i < |items| ==> ItemOk(level, frustums, items[i])
  {
    && |es| == |items|
    && forall i {:trigger ItemClip(level, frustums, items[i])} :: 0 <= i < |items| ==> es[i] == ItemClip(level, frustums, items[i])
  }

  /** The per-item list is the one ItemEmissions builds, and no other. */
  lemma EmissionsOfItems(level: Level, frustums: seq<Plane>, items: seq<TrianglesMeta>)
    requires WellFormed(level) && forall i :: 0 <= i < |items| ==> ItemOk(level, frustums, items[i])
    ensures EmissionsOf(level, frustums, items, ItemEmissions(level, frustums, items))
    ensures forall es :: EmissionsOf(level, frustums, items, es) ==> es == ItemEmissions(level, frustums, items)
  {
    var all := ItemEmissions(level, frustums, items);
    forall i | 0 <= i < |items| {
      ItemEmissionAt(level, frustums, items, i);
    }
    forall es | EmissionsOf(level, frustums, items, es) ensures es == all {
      assert forall i :: 0 <= i < |items| ==> es[i] == all[i];
    }
  }

  /** What the whole job emits. The job runs its items in parallel, so only
      the membership of the concatenation is meaningful. */
  function JobClip(level: Level, frustums: seq<Plane>, items: seq<TrianglesMeta>): Emission
    requires WellFormed(level) && forall i :: 0 <= i < |items| ==> ItemOk(level, frustums, items[i])
  {
    Concat(ItemEmissions(level, frustums, items), |items|)
  }

  /** A concatenation of emissions in front of planes is in front of them. */
  lemma {:induction false} ConcatInFront(planes: seq<Plane>, es: seq<Emission>, n: nat)
    requires n <= |es| && forall k :: 0 <= k < n ==> AllInFront(planes, es[k].out)
    ensures AllInFront(planes, Concat(es, n).out)
  {
    if n > 0 {
      ConcatInFront(planes, es, n - 1);
      if Concat(es, n - 1).ok {
        AllInFrontAppend(planes, Concat(es, n - 1).out, es[n - 1].out);
      }
    }
  }

  /** Every triangle an item emits lies in front of every plane of the item's plane range. */
  lemma ItemClipInFront(level: Level, frustums: seq<Plane>, tm: TrianglesMeta)
    requires WellFormed(level) && ItemOk(level, frustums, tm)
    ensures AllInFront(ItemPlanes(frustums, tm), ItemClip(level, frustums, tm).out)
  {
    var planes, sources := ItemPlanes(frustums, tm), ItemSources(level, tm);
    var es := SourceEmissions(planes, sources);
    forall k | 0 <= k < |es|
      ensures AllInFront(planes, es[k].out)
    {
      SourceEmissionAt(planes, sources, k);
      ClipSourceInFront(planes, sources[k]);
    }
    ConcatInFront(planes, es, |es|);
  }

  lemma {:induction false} SourcesNoPlanes(sources: seq<Triangle>, n: nat)
    requires n <= |sources|
    ensures Concat(SourceEmissions([], sources), n) == Emission(sources[..n], true)
  {
    if n > 0 {
      SourcesNoPlanes(sources, n - 1);
      SourceEmissionAt([], sources, n - 1);
      ClipSourceNoPlanes(sources[n - 1]);
      assert sources[..n] == sources[..n - 1] + [sources[n - 1]];
    }
  }

  /** With an empty plane range an item emits its source triangles unchanged, in order. */
  lemma ItemClipNoPlanes(level: Level, frustums: seq<Plane>, tm: TrianglesMeta)
    requires WellFormed(level) && ItemOk(level, frustums, tm) && tm.planeCount == 0
    ensures ItemClip(level, frustums, tm) == Emission(ItemSources(level, tm), true)
  {
    var sources := ItemSources(level, tm);
    assert ItemPlanes(frustums, tm) == [];
    SourcesNoPlanes(sources, |sources|);
    assert sources[..|sources|] == sources;
  }

  /** Once an emission overflows, the concatenation stays as it was. */
  lemma {:induction false} ConcatFailed(es: seq<Emission>, k: nat, m: nat)
    requires k <= m <= |es| && !Concat(es, k).ok
    ensures Concat(es, m) == Concat(es, k)
    decreases m - k
  {
    if k < m {
      ConcatFailed(es, k, m - 1);
    }
  }

  /** One more emission after a run without overflow: its pieces follow
      the earlier ones, and if it overflowed the whole concatenation stops
      there. */
  lemma ConcatNext(es: seq<Emission>, n: nat, before: seq<Triangle>)
    requires n < |es| && Concat(es, n).ok
    ensures before + Concat(es, n).out + es[n].out == before + Concat(es, n + 1).out
    ensures Concat(es, n + 1).ok == es[n].ok
    ensures !es[n].ok ==> Concat(es, |es|) == Concat(es, n + 1)
  {
    ConcatAssoc(before, Concat(es, n).out, es[n].out);
    if !es[n].ok {
      ConcatFailed(es, n + 1, |es|);
    }
  }

  /** The concatenation holds only what the emissions hold, and, when none
      overflowed, everything they hold. */
  lemma {:induction false} ConcatMembers(es: seq<Emission>, n: nat, p: Triangle)
    requires n <= |es|
    ensures p in Concat(es, n).out ==> exists i :: 0 <= i < n && p in es[i].out
    ensures Concat(es, n).ok ==> (p in Concat(es, n).out <==> exists i :: 0 <= i < n && p in es[i].out)
  {
    if n > 0 {
      ConcatMembers(es, n - 1, p);
      var prev := Concat(es, n - 1);
      if prev.ok {
        assert p in prev.out + es[n - 1].out <==> p in prev.out || p in es[n - 1].out;
      }
    }
  }

  /** Every triangle the job emits comes from one of its items and lies in
      front of every plane of that item's plane range; when no slice
      overflowed, everything an item emits is in the job's output. */
  lemma JobClipInFront(level: Level, frustums: seq<Plane>, items: seq<TrianglesMeta>, p: Triangle)
    requires WellFormed(level) && forall i :: 0 <= i < |items| ==> ItemOk(level, frustums, items[i])
    ensures p in JobClip(level, frustums, items).out ==>
              exists i :: 0 <= i < |items| && p in ItemClip(level, frustums, items[i]).out
                          && AllInFront(ItemPlanes(frustums, items[i]), ItemClip(level, frustums, items[i]).out)
    ensures JobClip(level, frustums, items).ok ==>
              forall i :: 0 <= i < |items| && p in ItemClip(level, frustums, items[i]).out ==> p in JobClip(level, frustums, items).out
  {
    var es := ItemEmissions(level, frustums, items);
    ConcatMembers(es, |items|, p);
    forall i | 0 <= i < |items| {
      ItemEmissionAt(level, frustums, items, i);
    }
    if p in JobClip(level, frustums, items).out {
      var i :| 0 <= i < |items| && p in es[i].out;
      ItemEmissionAt(level, frustums, items, i);
      ItemClipInFront(level, frustums, items[i]);
    }
  }

  // ---------------------------------------------------------------------------
  // The scratch arrays

  class TriangleClipper {
    const processVertices: array<Vec3>
    const processTextures: array<Vec3>
    const processFlags: array<bool>
    const temporaryVertices: array<Vec3>
    const temporaryTextures: array<Vec3>
    /** The job's output list (finalTriangles). */
    var finalTriangles: seq<Triangle>

    ghost predicate Valid()
    {
      && processVertices != processTextures && processVertices != temporaryVertices
      && processVertices != temporaryTextures && processTextures != temporaryVertices
      && processTextures != temporaryTextures && temporaryVertices != temporaryTextures
      && processTextures.Length == processVertices.Length && processFlags.Length == processVertices.Length
      && temporaryVertices.Length == processVertices.Length && temporaryTextures.Length == processVertices.Length
    }

    /** Scratch space for `items` work items. */
    constructor (items: nat)
      ensures Valid() && processVertices.Length == items * SliceSize && finalTriangles == []
      ensures fresh(processVertices) && fresh(processTextures) && fresh(processFlags)
      ensures fresh(temporaryVertices) && fresh(temporaryTextures)
    {
      processVertices := new Vec3[items * SliceSize](_ => Zero);
      processTextures := new Vec3[items * SliceSize](_ => Zero);
      processFlags := new bool[items * SliceSize](_ => false);
      temporaryVertices := new Vec3[items * SliceSize](_ => Zero);
      temporaryTextures := new Vec3[items * SliceSize](_ => Zero);
      finalTriangles := [];
    }

    /** The item slice starting at base lies inside the arrays. */
    ghost predicate SliceOk(base: int)
    {
      Valid() && 0 <= base && base + SliceSize <= processVertices.Length
    }

    ghost function ProcessTriangle(i: int): Triangle
      reads processVertices, processTextures
      requires Valid() && 0 <= i && i + 2 < processVertices.Length
    {
      Triangle(processVertices[i], processVertices[i + 1], processVertices[i + 2],
               processTextures[i], processTextures[i + 1], processTextures[i + 2])
    }

    ghost function TemporaryTriangle(i: int): Triangle
      reads temporaryVertices, temporaryTextures
      requires Valid() && 0 <= i && i + 2 < processVertices.Length
    {
      Triangle(temporaryVertices[i], temporaryVertices[i + 1], temporaryVertices[i + 2],
               temporaryTextures[i], temporaryTextures[i + 1], temporaryTextures[i + 2])
    }

    /** Every scratch entry outside the slice starting at base is as it was
        in the earlier state: an item touches no other item's slice. */
    twostate predicate KeptOutside(base: int)
      reads processVertices, processTextures, processFlags, temporaryVertices, temporaryTextures
      requires Valid()
    {
      forall i :: 0 <= i < processVertices.Length && !(base <= i < base + SliceSize) ==>
        && processVertices[i] == old(processVertices[i]) && processTextures[i] == old(processTextures[i])
        && processFlags[i] == old(processFlags[i])
        && temporaryVertices[i] == old(temporaryVertices[i]) && temporaryTextures[i] == old(temporaryTextures[i])
    }

    /** The process part of the slice at base holds the triangles of `slots`. */
    ghost predicate TrianglesHold(base: int, slots: seq<Slot>)
      reads processVertices, processTextures
      requires SliceOk(base)
    {
      3 * |slots| <= SliceSize && forall k :: 0 <= k < |slots| ==> ProcessTriangle(base + 3 * k) == slots[k].tri
    }

    /** The three flags of every slot of the slice at base agree with its liveness. */
    ghost predicate FlagsHold(base: int, slots: seq<Slot>)
      reads processFlags
      requires SliceOk(base)
    {
      3 * |slots| <= SliceSize
      && forall k :: 0 <= k < |slots| ==>
           && processFlags[base + 3 * k] == slots[k].live
           && processFlags[base + 3 * k + 1] == slots[k].live
           && processFlags[base + 3 * k + 2] == slots[k].live
    }

    /** The process part of the slice at base holds `slots`. */
    ghost predicate Holds(base: int, slots: seq<Slot>)
      reads processVertices, processTextures, processFlags
      requires SliceOk(base)
    {
      TrianglesHold(base, slots) && FlagsHold(base, slots)
    }

    /** The temporary part of the slice at base holds `pieces`. */
    ghost predicate TempHolds(base: int, pieces: seq<Triangle>)
      reads temporaryVertices, temporaryTextures
      requires SliceOk(base)
    {
      3 * |pieces| <= SliceSize && forall j :: 0 <= j < |pieces| ==> TemporaryTriangle(base + 3 * j) == pieces[j]
    }

    /** The start of the source-triangle loop: one live slot holding the source triangle. */
    method LoadSource(base: nat, t: Triangle)
      requires SliceOk(base)
      modifies processVertices, processTextures, processFlags
      ensures KeptOutside(base)
      ensures Holds(base, [Slot(t, true)])
    {
      processVertices[base], processVertices[base + 1], processVertices[base + 2] := t.v0, t.v1, t.v2;
      processTextures[base], processTextures[base + 1], processTextures[base + 2] := t.uv0, t.uv1, t.uv2;
      processFlags[base], processFlags[base + 1], processFlags[base + 2] := true, true, true;
    }

    /** Writes one piece at temporary position tcount of the slice. */
    method PushTemporary(base: nat, tcount: nat, p: Triangle, ghost pieces: seq<Triangle>)
      requires SliceOk(base) && TempHolds(base, pieces) && tcount == |pieces| && 3 * (tcount + 1) <= SliceSize
      modifies temporaryVertices, temporaryTextures
      ensures KeptOutside(base)
      ensures TempHolds(base, pieces + [p])
    {
      var i := base + 3 * tcount;
      temporaryVertices[i], temporaryVertices[i + 1], temporaryVertices[i + 2] := p.v0, p.v1, p.v2;
      temporaryTextures[i], temporaryTextures[i + 1], temporaryTextures[i + 2] := p.uv0, p.uv1, p.uv2;
      forall j | 0 <= j < |pieces| ensures TemporaryTriangle(base + 3 * j) == (pieces + [p])[j] {
        assert TemporaryTriangle(base + 3 * j) == old(TemporaryTriangle(base + 3 * j));
      }
    }

    /** Switches off the three flags of slot c. */
    method KillSlot(base: nat, c: nat, ghost slots: seq<Slot>)
      requires SliceOk(base) && FlagsHold(base, slots) && c < |slots|
      modifies processFlags
      ensures KeptOutside(base)
      ensures FlagsHold(base, slots[c := Slot(slots[c].tri, false)])
    {
      var i := base + 3 * c;
      processFlags[i], processFlags[i + 1], processFlags[i + 2] := false, false, false;
    }

    /** Writes triangle t right after the n triangles of the slice. */
    method WriteTriangle(base: nat, n: nat, t: Triangle, ghost slots: seq<Slot>)
      requires SliceOk(base) && TrianglesHold(base, slots) && |slots| == n && 3 * (n + 1) <= SliceSize
      modifies processVertices, processTextures
      ensures KeptOutside(base)
      ensures TrianglesHold(base, slots + [Slot(t, true)])
    {
      var i := base + 3 * n;
      processVertices[i], processVertices[i + 1], processVertices[i + 2] := t.v0, t.v1, t.v2;
      processTextures[i], processTextures[i + 1], processTextures[i + 2] := t.uv0, t.uv1, t.uv2;
      forall k | 0 <= k < n ensures ProcessTriangle(base + 3 * k) == slots[k].tri {
        assert ProcessTriangle(base + 3 * k) == old(ProcessTriangle(base + 3 * k));
      }
      assert ProcessTriangle(i) == t;
    }

    /** Sets the three flags of the slot right after the n slots of the slice. */
    method RaiseFlags(base: nat, n: nat, ghost slots: seq<Slot>, ghost s: Slot)
      requires SliceOk(base) && FlagsHold(base, slots) && |slots| == n && 3 * (n + 1) <= SliceSize && s.live
      modifies processFlags
      ensures KeptOutside(base)
      ensures FlagsHold(base, slots + [s])
    {
      var i := base + 3 * n;
      processFlags[i], processFlags[i + 1], processFlags[i + 2] := true, true, true;
      ghost var slots' := slots + [s];
      forall k | 0 <= k < n + 1
        ensures processFlags[base + 3 * k] == processFlags[base + 3 * k + 1] == processFlags[base + 3 * k + 2] == slots'[k].live
      {
        if k < n {
          assert slots'[k] == slots[k];
        }
      }
    }

    /** Writes a live slot holding t right after the n slots of the slice. */
    method AppendSlot(base: nat, n: nat, t: Triangle, ghost slots: seq<Slot>)
      requires SliceOk(base) && Holds(base, slots) && |slots| == n && 3 * (n + 1) <= SliceSize
      modifies processVertices, processTextures, processFlags
      ensures KeptOutside(base)
      ensures Holds(base, slots + [Slot(t, true)])
    {
      WriteTriangle(base, n, t, slots);
      RaiseFlags(base, n, slots, Slot(t, true));
    }

    /** Writes the pieces ps after the pieces already in the temporary part. */
    method PushPieces(base: nat, tcount: nat, ps: seq<Triangle>, ghost done: seq<Triangle>) returns (tcount': nat)
      requires SliceOk(base) && TempHolds(base, done) && tcount == |done| && 3 * (tcount + |ps|) <= SliceSize
      modifies temporaryVertices, temporaryTextures
      ensures KeptOutside(base)
      ensures TempHolds(base, done + ps) && tcount' == |done + ps|
    {
      tcount' := tcount;
      var j := 0;
      while j < |ps|
        invariant 0 <= j <= |ps|
        invariant TempHolds(base, done + ps[..j]) && tcount' == |done| + j
        invariant KeptOutside(base)
      {
        assert done + ps[..j + 1] == (done + ps[..j]) + [ps[j]];
        PushTemporary(base, tcount', ps[j], done + ps[..j]);
        tcount' := tcount' + 1;
        j := j + 1;
      }
      assert ps[..j] == ps;
    }

    /** Slot c, found live, is clipped against the plane: a slot not
        entirely in front is switched off and its pieces, if any, go to the
        temporary part; fails when they would not fit there. */
    method ClipLiveSlot(base: nat, c: nat, pl: Plane, ghost cur: seq<Slot>, ghost done: seq<Triangle>, tcount: nat)
      returns (tcount': nat, ok: bool)
      requires SliceOk(base) && FlagsHold(base, cur) && c < |cur| && cur[c].live
      requires ProcessTriangle(base + 3 * c) == cur[c].tri
      requires TempHolds(base, done) && tcount == |done|
      modifies processFlags, temporaryVertices, temporaryTextures
      ensures KeptOutside(base)
      ensures ok <==> 3 * |done + SlotPieces(pl, cur[c])| <= SliceSize
      ensures ok ==> && FlagsHold(base, cur[c := MarkSlot(pl, cur[c])])
                     && TempHolds(base, done + SlotPieces(pl, cur[c])) && tcount' == |done + SlotPieces(pl, cur[c])|
    {
      var t := ProcessTriangleOf(base + 3 * c);
      var clip := ClipTriangle(pl, t);
      tcount', ok := tcount, true;
      if clip == Keep {
        assert done + [] == done && cur[c := cur[c]] == cur;
        return;
      }
      if clip.Split? {
        if 3 * (tcount + |clip.pieces|) > SliceSize {
          return tcount, false;
        }
        tcount' := PushPieces(base, tcount, clip.pieces, done);
      } else {
        assert done + [] == done;
      }
      KillSlot(base, c, cur);
    }

    /** One step of the slot loop: slot c is clipped against the plane. */
    method ClipSlotAt(base: nat, n: nat, c: nat, pl: Plane, ghost slots: seq<Slot>, tcount: nat) returns (tcount': nat, ok: bool)
      requires SliceOk(base) && TrianglesHold(base, slots) && |slots| == n && c < n
      requires FlagsHold(base, MarkedUpTo(pl, slots, c))
      requires TempHolds(base, Pieces(pl, slots[..c])) && tcount == |Pieces(pl, slots[..c])|
      modifies processFlags, temporaryVertices, temporaryTextures
      ensures KeptOutside(base)
      ensures ok ==> FlagsHold(base, MarkedUpTo(pl, slots, c + 1))
      ensures ok ==> TempHolds(base, Pieces(pl, slots[..c + 1])) && tcount' == |Pieces(pl, slots[..c + 1])|
      ensures !ok ==> 3 * |Pieces(pl, slots[..c + 1])| > SliceSize
    {
      var i := base + 3 * c;
      ghost var cur := MarkedUpTo(pl, slots, c);
      ghost var done := Pieces(pl, slots[..c]);
      PiecesStep(pl, slots, c);
      assert ProcessTriangle(i) == slots[c].tri && processFlags[i] == slots[c].live && cur[c] == slots[c];
      MarkedUpToStep(pl, slots, c);
      if processFlags[i] || processFlags[i + 1] || processFlags[i + 2] {
        tcount', ok := ClipLiveSlot(base, c, pl, cur, done, tcount);
      } else {
        assert done + [] == done && cur[c := cur[c]] == cur;
        tcount', ok := tcount, true;
      }
    }

    /** The slot loop of one plane: switches off every live slot that is not
        entirely in front and writes its pieces to the temporary part; fails
        when the temporary part would overflow. */
    method ClipPass(base: nat, n: nat, pl: Plane, ghost slots: seq<Slot>) returns (tcount: nat, ok: bool)
      requires SliceOk(base) && Holds(base, slots) && |slots| == n
      modifies processFlags, temporaryVertices, temporaryTextures
      ensures KeptOutside(base)
      ensures ok ==> Holds(base, Marked(pl, slots)) && TempHolds(base, Pieces(pl, slots)) && tcount == |Pieces(pl, slots)|
      ensures !ok ==> 3 * |Pieces(pl, slots)| > SliceSize
    {
      tcount := 0;
      var c := 0;
      assert slots[..0] == [];
      while c < n
        invariant 0 <= c <= n
        invariant TrianglesHold(base, slots) && FlagsHold(base, MarkedUpTo(pl, slots, c))
        invariant TempHolds(base, Pieces(pl, slots[..c])) && tcount == |Pieces(pl, slots[..c])|
        invariant KeptOutside(base)
      {
        tcount, ok := ClipSlotAt(base, n, c, pl, slots, tcount);
        if !ok {
          PiecesMonotone(pl, slots, c + 1);
          return;
        }
        c := c + 1;
      }
      assert slots[..c] == slots;
      assert MarkedUpTo(pl, slots, c) == Marked(pl, slots);
      ok := true;
    }

    /** The append loop of one plane: the temporary pieces become new live slots. */
    method AppendPass(base: nat, n: nat, tcount: nat, ghost marked: seq<Slot>, ghost pieces: seq<Triangle>)
      requires SliceOk(base) && Holds(base, marked) && TempHolds(base, pieces)
      requires |marked| == n && |pieces| == tcount && 3 * (n + tcount) <= SliceSize
      modifies processVertices, processTextures, processFlags
      ensures KeptOutside(base)
      ensures Holds(base, marked + FreshSlots(pieces))
    {
      var d := 0;
      while d < tcount
        invariant 0 <= d <= tcount
        invariant Holds(base, marked + FreshSlots(pieces[..d])) && TempHolds(base, pieces)
        invariant KeptOutside(base)
      {
        var t := TemporaryTriangleOf(base + 3 * d);
        assert t == pieces[d];
        AppendSlot(base, n + d, t, marked + FreshSlots(pieces[..d]));
        assert marked + FreshSlots(pieces[..d]) + [Slot(t, true)] == marked + FreshSlots(pieces[..d + 1]);
        d := d + 1;
      }
      assert pieces[..d] == pieces;
    }

    /** One plane of the plane loop: the slot pass, then the append pass;
        fails when the slots after the plane would not fit in the slice. */
    method ClipPlane(base: nat, n: nat, pl: Plane, ghost slots: seq<Slot>) returns (n': nat, ok: bool)
      requires SliceOk(base) && Holds(base, slots) && |slots| == n
      modifies processVertices, processTextures, processFlags, temporaryVertices, temporaryTextures
      ensures KeptOutside(base)
      ensures ok <==> 3 * |PlaneStep(pl, slots)| <= SliceSize
      ensures ok ==> Holds(base, PlaneStep(pl, slots)) && n' == |PlaneStep(pl, slots)|
    {
      var tcount, passOk := ClipPass(base, n, pl, slots);
      ghost var next := PlaneStep(pl, slots);
      if !passOk || 3 * (n + tcount) > SliceSize {
        assert 3 * |next| > SliceSize;
        return n, false;
      }
      if tcount > 0 {
        AppendPass(base, n, tcount, Marked(pl, slots), Pieces(pl, slots));
      } else {
        assert Marked(pl, slots) == next;
      }
      n', ok := n + tcount, true;
    }

    /** The plane loop for one source triangle: load it, clip it by each
        plane in turn, then collect the living slots. Fails where the slice
        would overflow. */
    method ClipOneSource(base: nat, planes: seq<Plane>, t: Triangle) returns (out: seq<Triangle>, ok: bool)
      requires SliceOk(base)
      modifies processVertices, processTextures, processFlags, temporaryVertices, temporaryTextures
      ensures KeptOutside(base)
      ensures ok <==> ClipSource(planes, t).Some?
      ensures ok ==> out == ClipSource(planes, t).value
      ensures !ok ==> out == []
    {
      LoadSource(base, t);
      ghost var slots := [Slot(t, true)];
      var n := 1;
      var b := 0;
      assert planes[0..] == planes;
      while b < |planes|
        invariant 0 <= b <= |planes| && |slots| == n
        invariant Holds(base, slots) && KeptOutside(base)
        invariant ClipSlots(planes[b..], slots) == ClipSlots(planes, [Slot(t, true)])
      {
        assert planes[b..][0] == planes[b] && planes[b..][1..] == planes[b + 1..];
        var planeOk;
        n, planeOk := ClipPlane(base, n, planes[b], slots);
        if !planeOk {
          return [], false;
        }
        slots := PlaneStep(planes[b], slots);
        b := b + 1;
      }
      assert planes[b..] == [];
      out := EmitSlots(base, n, slots);
      ok := true;
    }

    /** Source triangle k of an item, clipped in the item's slice; es lists
        what each source triangle of the item contributes. */
    method ClipNextSource(level: Level, frustums: seq<Plane>, base: nat, tm: TrianglesMeta, k: nat,
                          ghost es: seq<Emission>) returns (out: seq<Triangle>, ok: bool)
      requires WellFormed(level) && ItemOk(level, frustums, tm) && SliceOk(base) && k < SourceCount(tm)
      requires SourcesOf(ItemPlanes(frustums, tm), ItemSources(level, tm), es)
      modifies processVertices, processTextures, processFlags, temporaryVertices, temporaryTextures
      ensures KeptOutside(base)
      ensures ok == es[k].ok && out == es[k].out
    {
      var src := SourceTriangle(level, tm.triangleStartIndex + 3 * k);
      assert src == ItemSources(level, tm)[k];
      out, ok := ClipOneSource(base, ItemPlanes(frustums, tm), src);
    }

    /** ClipTrianglesJob.Execute(index): work item `index` works in the slice
        starting at index * 256. ok is false when the slice overflowed. */
    method Execute(level: Level, frustums: seq<Plane>, items: seq<TrianglesMeta>, index: nat) returns (ok: bool)
      requires WellFormed(level) && forall i :: 0 <= i < |items| ==> ItemOk(level, frustums, items[i])
      requires Valid() && index < |items| && |items| * 256 <= processVertices.Length
      modifies this`finalTriangles, processVertices, processTextures, processFlags, temporaryVertices, temporaryTextures
      ensures KeptOutside(index * 256)
      ensures finalTriangles == old(finalTriangles) + ItemClip(level, frustums, items[index]).out
      ensures ok == ItemClip(level, frustums, items[index]).ok
    {
      ok := ClipItem(level, frustums, index * 256, items[index]);
    }

    /** The body of Execute: the item's source triangles clipped in turn in
        the slice at base, the surviving pieces appended to finalTriangles. */
    method ClipItem(level: Level, frustums: seq<Plane>, base: nat, tm: TrianglesMeta) returns (ok: bool)
      requires WellFormed(level) && ItemOk(level, frustums, tm) && SliceOk(base)
      modifies this`finalTriangles, processVertices, processTextures, processFlags, temporaryVertices, temporaryTextures
      ensures KeptOutside(base)
      ensures finalTriangles == old(finalTriangles) + ItemClip(level, frustums, tm).out
      ensures ok == ItemClip(level, frustums, tm).ok
    {
      SourcesOfEmissions(ItemPlanes(frustums, tm), ItemSources(level, tm));
      ghost var es :| SourcesOf(ItemPlanes(frustums, tm), ItemSources(level, tm), es);
      SourcesOfItem(level, frustums, tm, es);
      var n := SourceCount(tm);
      var k := 0;
      while k < n
        invariant 0 <= k <= n
        invariant Concat(es, k).ok
        invariant finalTriangles == old(finalTriangles) + Concat(es, k).out
        invariant KeptOutside(base)
      {
        var out, srcOk := ClipNextSource(level, frustums, base, tm, k, es);
        ConcatAssoc(old(finalTriangles), Concat(es, k).out, out);
        if !srcOk {
          finalTriangles := finalTriangles + out;
          ConcatFailed(es, k + 1, n);
          return false;
        }
        finalTriangles := finalTriangles + out;
        k := k + 1;
      }
      ok := true;
    }

    /** The emit loop: the triangles of the slots whose three flags are set, in slot order. */
    method EmitSlots(base: nat, n: nat, ghost slots: seq<Slot>) returns (out: seq<Triangle>)
      requires SliceOk(base) && Holds(base, slots) && |slots| == n
      ensures out == Emitted(slots)
    {
      out := [];
      var e := 0;
      while e < n
        invariant 0 <= e <= n && out == Emitted(slots[..e])
      {
        var i := base + 3 * e;
        assert slots[..e + 1][..e] == slots[..e];
        if processFlags[i] && processFlags[i + 1] && processFlags[i + 2] {
          out := out + [ProcessTriangleOf(i)];
        }
        e := e + 1;
      }
      assert slots[..e] == slots;
    }

    function TemporaryTriangleOf(i: int): (t: Triangle)
      reads temporaryVertices, temporaryTextures
      requires Valid() && 0 <= i && i + 2 < processVertices.Length
      ensures t == TemporaryTriangle(i)
    {
      Triangle(temporaryVertices[i], temporaryVertices[i + 1], temporaryVertices[i + 2],
               temporaryTextures[i], temporaryTextures[i + 1], temporaryTextures[i + 2])
    }

    function ProcessTriangleOf(i: int): (t: Triangle)
      reads processVertices, processTextures
      requires Valid() && 0 <= i && i + 2 < processVertices.Length
      ensures t == ProcessTriangle(i)
    {
      Triangle(processVertices[i], processVertices[i + 1], processVertices[i + 2],
               processTextures[i], processTextures[i + 1], processTextures[i + 2])
    }
  }

  /** The slots with the first c of them marked by a plane pass. */
  function MarkedUpTo(pl: Plane, slots: seq<Slot>, c: int): (r: seq<Slot>)
    ensures |r| == |slots|
    ensures forall k :: 0 <= k < |slots| ==> r[k] == if k < c then MarkSlot(pl, slots[k]) else slots[k]
  {
    seq(|slots|, k requires 0 <= k < |slots| => if k < c then MarkSlot(pl, slots[k]) else slots[k])
  }

  /** The pieces of one more slot come after those of the slots before it. */
  lemma PiecesStep(pl: Plane, slots: seq<Slot>, c: nat)
    requires c < |slots|
    ensures Pieces(pl, slots[..c + 1]) == Pieces(pl, slots[..c]) + SlotPieces(pl, slots[c])
  {
    assert slots[..c + 1][..c] == slots[..c] && slots[..c + 1][c] == slots[c];
  }

  /** Marking one more slot updates that slot alone. */
  lemma MarkedUpToStep(pl: Plane, slots: seq<Slot>, c: nat)
    requires c < |slots|
    ensures MarkedUpTo(pl, slots, c + 1) == MarkedUpTo(pl, slots, c)[c := MarkSlot(pl, slots[c])]
  {
    var a, b := MarkedUpTo(pl, slots, c + 1), MarkedUpTo(pl, slots, c)[c := MarkSlot(pl, slots[c])];
    assert forall k :: 0 <= k < |slots| ==> a[k] == b[k];
  }

  /** The pieces of a prefix of the slots come first among the pieces of all of them. */
  lemma {:induction false} PiecesMonotone(pl: Plane, slots: seq<Slot>, c: nat)
    requires c <= |slots|
    ensures |Pieces(pl, slots[..c])| <= |Pieces(pl, slots)|
    decreases |slots| - c
  {
    if c < |slots| {
      PiecesMonotone(pl, slots, c + 1);
      assert slots[..c + 1][..c] == slots[..c];
    } else {
      assert slots[..c] == slots;
    }
  }
}
