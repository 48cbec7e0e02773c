/**
  The index arithmetic of the line-to-ribbon expansion in
  BufferMeshLineGeometry.fromGeometry, and a reference definition of the
  ribbon it is meant to produce.

  A polyline of n points is expanded into ExpCount(n) = 4n - 4 slots. Point i
  owns the block starting at BaseIdx(i) = 4i - 2: its trailing pair (the end
  of segment i-1 -> i) at BaseIdx(i) and BaseIdx(i) + 1, and its leading pair
  (the start of segment i -> i+1) at BaseIdx(i) + 2 and BaseIdx(i) + 3, each
  pair written only when its guard holds.

  Ribbon is the same output described segment by segment instead of point by
  point; the lemmas below tie the two views together.
 */
module Expansion {

  /** Number of expanded vertices for n source points, as fromGeometry computes
      it. Negative exactly when there are no points; otherwise every interior
      point contributes four slots and each of the two endpoints two. */
  function ExpCount(n: nat): (c: int)
    ensures c < 0 <==> n == 0
    ensures n == 1 ==> c == 0
    ensures n >= 2 ==> c == 4 * (n - 2) + 2 * 2
  {
    n * 4 - 4
  }

  /** First slot of point i's block; negative for the first point. */
  function BaseIdx(i: nat): int
  {
    i * 4 - 2
  }

  /** The guard `baseIdx >= 0`: point i ends a segment exactly when it is not
      the first point. */
  function EndsSegment(i: nat): (b: bool)
    ensures b <==> 1 <= i
  {
    BaseIdx(i) >= 0
  }

  /** The guard `baseIdx + 3 < expCount`: point i starts a segment exactly when
      it is not the last point. */
  function StartsSegment(i: nat, n: nat): (b: bool)
    ensures b <==> i + 1 < n
  {
    BaseIdx(i) + 3 < ExpCount(n)
  }

  /** The slots point i of n writes, each pair only when its guard holds. */
  function PointSlots(i: nat, n: nat): set<int>
  {
    (if EndsSegment(i) then {BaseIdx(i), BaseIdx(i) + 1} else {})
    + (if StartsSegment(i, n) then {BaseIdx(i) + 2, BaseIdx(i) + 3} else {})
  }

  /** The source point whose position slot k carries. */
  function SourceIndex(k: nat): nat
  {
    (k + 2) / 4
  }

  /** The point whose position slot k carries as its "other" position: the
      next point in the first half of a block, the previous one in the second. */
  function NeighbourIndex(k: nat): int
  {
    if k % 4 < 2 then SourceIndex(k) + 1 else SourceIndex(k) - 1
  }

  /** The miter direction written into slot k; only +1 and -1 are ever used. */
  function MiterAt(k: nat): (m: real)
    ensures m == 1.0 || m == -1.0
  {
    if k % 4 == 0 || k % 4 == 3 then -1.0 else 1.0
  }

  /** The guards keep every write inside [0, expCount) and every neighbour read
      inside the point list. */
  lemma GuardsInRange(n: nat, i: nat)
    requires i < n
    ensures EndsSegment(i) ==> 0 <= i - 1 < n
    ensures StartsSegment(i, n) ==> 0 <= i + 1 < n
    ensures forall k :: k in PointSlots(i, n) ==> 0 <= k < ExpCount(n)
  {
  }

  /** Point i writes exactly the slots that SourceIndex assigns to it. */
  lemma PointSlotsExact(n: nat, i: nat)
    requires i < n
    ensures forall k: int :: k in PointSlots(i, n) <==> 0 <= k < ExpCount(n) && SourceIndex(k) == i
  {
  }

  /** Every slot of the output is written by one point and by no other one:
      no gaps and no overwrites. */
  lemma EachSlotOnce(n: nat, k: int)
    requires 0 <= k < ExpCount(n)
    ensures SourceIndex(k) < n && k in PointSlots(SourceIndex(k), n)
    ensures forall i: nat :: i < n && k in PointSlots(i, n) ==> i == SourceIndex(k)
  {
    PointSlotsExact(n, SourceIndex(k));
    forall i: nat | i < n && k in PointSlots(i, n)
      ensures i == SourceIndex(k)
    {
      PointSlotsExact(n, i);
    }
  }

  /** Position and neighbour of a slot are both points of the line, and they
      are adjacent on it. */
  lemma NeighbourAdjacent(n: nat, k: nat)
    requires k < ExpCount(n)
    ensures SourceIndex(k) < n && 0 <= NeighbourIndex(k) < n
    ensures NeighbourIndex(k) == SourceIndex(k) + 1 || NeighbourIndex(k) + 1 == SourceIndex(k)
  {
  }

  /** One expanded vertex: the point it sits on, the point it looks towards,
      and the side of the line it is pushed to. */
  datatype RibbonVertex<T> = RibbonVertex(position: T, other: T, miter: real)

  /** The four vertices of the quad for segment a -> b: the leading pair of a
      followed by the trailing pair of b. */
  function SegmentQuad<T>(a: T, b: T): seq<RibbonVertex<T>>
  {
    [RibbonVertex(a, b, -1.0), RibbonVertex(a, b, 1.0),
     RibbonVertex(b, a, 1.0), RibbonVertex(b, a, -1.0)]
  }

  /** The ribbon of a polyline, one quad per segment. */
  function Ribbon<T>(pts: seq<T>): (r: seq<RibbonVertex<T>>)
    ensures |pts| >= 1 ==> |r| == ExpCount(|pts|)
    ensures |pts| <= 1 ==> r == []
    decreases |pts|
  {
    if |pts| < 2 then [] else SegmentQuad(pts[0], pts[1]) + Ribbon(pts[1..])
  }

  /** The closed form of slot k of the ribbon. */
  lemma {:induction false} RibbonAt<T>(pts: seq<T>, k: nat)
    requires k < |Ribbon(pts)|
    ensures SourceIndex(k) < |pts| && 0 <= NeighbourIndex(k) < |pts|
    ensures Ribbon(pts)[k] == RibbonVertex(pts[SourceIndex(k)], pts[NeighbourIndex(k)], MiterAt(k))
  {
    if k >= 4 {
      RibbonAt(pts[1..], k - 4);
      assert SourceIndex(k) == SourceIndex(k - 4) + 1;
      assert NeighbourIndex(k) == NeighbourIndex(k - 4) + 1;
      assert MiterAt(k) == MiterAt(k - 4);
    }
  }

  /** Colour slots follow position slots: slot k of the ribbons of two lists of
      equal length comes from the same index of both. */
  lemma Lockstep<A, B>(a: seq<A>, b: seq<B>, k: nat)
    requires |a| == |b| && k < |Ribbon(a)|
    ensures |Ribbon(b)| == |Ribbon(a)|
    ensures exists i :: 0 <= i < |a| && Ribbon(a)[k].position == a[i] && Ribbon(b)[k].position == b[i]
  {
    RibbonAt(a, k);
    RibbonAt(b, k);
  }

  /** Number of vertices of r whose miter is m. */
  function CountMiter<T>(r: seq<RibbonVertex<T>>, m: real): (c: nat)
    ensures c <= |r|
  {
    if r == [] then 0 else (if r[0].miter == m then 1 else 0) + CountMiter(r[1..], m)
  }

  lemma {:induction false} CountMiterAppend<T>(a: seq<RibbonVertex<T>>, b: seq<RibbonVertex<T>>, m: real)
    ensures CountMiter(a + b, m) == CountMiter(a, m) + CountMiter(b, m)
  {
    if a == [] {
      assert a + b == b;
    } else {
      assert (a + b)[1..] == a[1..] + b;
      CountMiterAppend(a[1..], b, m);
    }
  }

  /** Each quad pushes two vertices to either side. */
  lemma QuadBalance<T>(a: T, b: T)
    ensures CountMiter(SegmentQuad(a, b), 1.0) == 2
    ensures CountMiter(SegmentQuad(a, b), -1.0) == 2
  {
    var q := SegmentQuad(a, b);
    assert q[1..] == q[1..4] && q[2..] == q[1..][1..] && q[3..] == q[2..][1..] && q[3..][1..] == [];
    assert CountMiter(q[3..], 1.0) == 0 && CountMiter(q[3..], -1.0) == 1;
    assert CountMiter(q[2..], 1.0) == 1 && CountMiter(q[2..], -1.0) == 1;
    assert CountMiter(q[1..], 1.0) == 2 && CountMiter(q[1..], -1.0) == 1;
  }

  /** Half of the 4n - 4 vertices carry miter +1 and the other half -1. */
  lemma {:induction false} MiterBalance<T>(pts: seq<T>)
    requires |pts| >= 1
    ensures CountMiter(Ribbon(pts), 1.0) == 2 * |pts| - 2
    ensures CountMiter(Ribbon(pts), -1.0) == 2 * |pts| - 2
  {
    if |pts| >= 2 {
      var q := SegmentQuad(pts[0], pts[1]);
      MiterBalance(pts[1..]);
      QuadBalance(pts[0], pts[1]);
      CountMiterAppend(q, Ribbon(pts[1..]), 1.0);
      CountMiterAppend(q, Ribbon(pts[1..]), -1.0);
    }
  }
}
