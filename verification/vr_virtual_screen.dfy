/**
 * The virtual screen: the integer structure of the cylinder mesh that
 * `generateCylinderSectionSimple` writes, and the placement state machine
 * of `GetCurrentVirtualScreenPosition`, which keeps the screen 2.5 m in
 * front of the viewer and follows the head with hysteresis.
 *
 * Geometry that needs `sinf`, `cosf` or `sqrtf` is supplied by the caller:
 * the column positions of the mesh, the drift of the target from the point
 * in front of the viewer, and the distance of the interpolated position
 * from the head, each tied to the vectors it measures.
 */
module VirtualScreen {
  import opened VrTypes

  const FloatsPerVertex: nat := 5
  const TargetDistance: real := 2.5
  const DistanceTolerance: real := 0.001
  const KeepTargetBelow: real := 0.1
  const MoveTargetAbove: real := 1.5
  const SnapAbove: real := 3.0
  const LerpFraction: real := 0.01

  /**
   * Float `k` of the vertex buffer for a mesh of `segments` columns pairs:
   * column `i` writes the top vertex (x, h/2, z, u, 1) and then the bottom
   * vertex (x, -h/2, z, u, 0), with u = i / segments.
   */
  function VertexFloat(height: real, segments: nat, xs: seq<real>, zs: seq<real>, k: nat): real
    requires segments >= 1 && |xs| == |zs| == segments + 1 && k < 2 * FloatsPerVertex * (segments + 1)
  {
    var i, j := k / 10, k % 10;
    var u := i as real / segments as real;
    var top := [xs[i], height * 0.5, zs[i], u, 1.0];
    var bottom := [xs[i], -height * 0.5, zs[i], u, 0.0];
    if j < 5 then top[j] else bottom[j - 5]
  }

  /** Index `k` of the index buffer: segment `k / 6` emits (2i, 2i+2, 2i+1) and (2i+1, 2i+2, 2i+3). */
  function IndexAt(k: nat): nat
  {
    var i, j := k / 6, k % 6;
    [2 * i, 2 * i + 2, 2 * i + 1, 2 * i + 1, 2 * i + 2, 2 * i + 3][j]
  }

  /** Every index names one of the 2 (segments + 1) vertices. */
  lemma IndicesInRange(segments: nat, k: nat)
    requires k < 6 * segments
    ensures IndexAt(k) < 2 * (segments + 1)
  {
    assert k / 6 < segments;
  }

  /**
   * Segment `i` is the quad between columns `i` and `i + 1`: two triangles
   * sharing the edge from the top of column `i + 1` to the bottom of
   * column `i`.
   */
  lemma SegmentTriangles(i: nat)
    ensures IndexAt(6 * i) == 2 * i && IndexAt(6 * i + 1) == 2 * i + 2 && IndexAt(6 * i + 2) == 2 * i + 1
    ensures IndexAt(6 * i + 3) == 2 * i + 1 && IndexAt(6 * i + 4) == 2 * i + 2 && IndexAt(6 * i + 5) == 2 * i + 3
  {
    SegmentOf(6 * i, i);
    SegmentOf(6 * i + 1, i);
    SegmentOf(6 * i + 2, i);
    SegmentOf(6 * i + 3, i);
    SegmentOf(6 * i + 4, i);
    SegmentOf(6 * i + 5, i);
  }

  /** Index `k` of the index buffer belongs to segment `i`. */
  lemma SegmentOf(k: nat, i: nat)
    requires 6 * i <= k < 6 * i + 6
    ensures k / 6 == i && k % 6 == k - 6 * i
  {
  }

  /** Float `k` of the vertex buffer belongs to column `i`. */
  lemma ColumnOf(k: nat, i: nat)
    requires 10 * i <= k < 10 * i + 10
    ensures k / 10 == i && k % 10 == k - 10 * i
  {
  }

  /**
   * Column `i` has u = i / segments, from 0 at the first column to 1 at the
   * last; top vertices have v = 1 and bottom ones v = 0.
   */
  lemma TextureCoordinates(height: real, segments: nat, xs: seq<real>, zs: seq<real>, i: nat)
    requires segments >= 1 && |xs| == |zs| == segments + 1 && i <= segments
    ensures var u := VertexFloat(height, segments, xs, zs, 10 * i + 3);
      && 0.0 <= u <= 1.0 && u == VertexFloat(height, segments, xs, zs, 10 * i + 8)
      && (i == 0 ==> u == 0.0) && (i == segments ==> u == 1.0)
    ensures VertexFloat(height, segments, xs, zs, 10 * i + 4) == 1.0
    ensures VertexFloat(height, segments, xs, zs, 10 * i + 9) == 0.0
    ensures VertexFloat(height, segments, xs, zs, 10 * i + 1) == height * 0.5
    ensures VertexFloat(height, segments, xs, zs, 10 * i + 6) == -height * 0.5
  {
    ColumnOf(10 * i + 1, i);
    ColumnOf(10 * i + 3, i);
    ColumnOf(10 * i + 4, i);
    ColumnOf(10 * i + 6, i);
    ColumnOf(10 * i + 8, i);
    ColumnOf(10 * i + 9, i);
    UnitFraction(i, segments);
  }

  /** `i / n` for `i` from 0 to `n` runs from 0 to 1. */
  lemma UnitFraction(i: nat, n: nat)
    requires 1 <= n && i <= n
    ensures var u := i as real / n as real; 0.0 <= u <= 1.0 && (i == 0 ==> u == 0.0) && (i == n ==> u == 1.0)
  {
    var u := i as real / n as real;
    assert u * n as real == i as real;
    assert i as real <= n as real;
  }

  /**
   * `generateCylinderSectionSimple` for `segments` segments; `xs` and `zs`
   * are the sine and cosine positions of the segments + 1 columns.
   */
  method GenerateCylinderSectionSimple(height: real, segments: nat, xs: seq<real>, zs: seq<real>)
    returns (vertices: array<real>, vertexCount: nat, indices: array<nat>, indexCount: nat)
    requires segments >= 1 && |xs| == |zs| == segments + 1
    ensures vertexCount == 2 * (segments + 1) && vertices.Length == FloatsPerVertex * vertexCount
    ensures forall k :: 0 <= k < vertices.Length ==> vertices[k] == VertexFloat(height, segments, xs, zs, k)
    ensures indexCount == 6 * segments && indices.Length == indexCount
    ensures forall k :: 0 <= k < indexCount ==> indices[k] == IndexAt(k) < vertexCount
  {
    vertexCount := 2 * (segments + 1);
    vertices := new real[FloatsPerVertex * vertexCount];
    indexCount := 6 * segments;
    indices := new nat[indexCount];
    var p := 0;
    for i := 0 to segments + 1
      modifies vertices
      invariant p == 10 * i
      invariant forall k :: 0 <= k < p ==> vertices[k] == VertexFloat(height, segments, xs, zs, k)
    {
      WriteColumn(vertices, height, segments, xs, zs, i);
      p := p + 10;
    }
    var q := 0;
    for i := 0 to segments
      modifies indices
      invariant q == 6 * i
      invariant forall k :: 0 <= k < q ==> indices[k] == IndexAt(k) < vertexCount
    {
      WriteSegment(indices, segments, i);
      q := q + 6;
    }
  }

  /** The ten floats of column `i`: its top and its bottom vertex. */
  method WriteColumn(vertices: array<real>, height: real, segments: nat, xs: seq<real>, zs: seq<real>, i: nat)
    requires segments >= 1 && |xs| == |zs| == segments + 1 && i <= segments
    requires vertices.Length == 10 * (segments + 1)
    modifies vertices
    ensures forall k :: 0 <= k < vertices.Length && !(10 * i <= k < 10 * i + 10) ==> vertices[k] == old(vertices[k])
    ensures forall k :: 10 * i <= k < 10 * i + 10 ==> vertices[k] == VertexFloat(height, segments, xs, zs, k)
  {
    var p := 10 * i;
    var u := i as real / segments as real;
    vertices[p] := xs[i];
    vertices[p + 1] := height * 0.5;
    vertices[p + 2] := zs[i];
    vertices[p + 3] := u;
    vertices[p + 4] := 1.0;
    vertices[p + 5] := xs[i];
    vertices[p + 6] := -height * 0.5;
    vertices[p + 7] := zs[i];
    vertices[p + 8] := u;
    vertices[p + 9] := 0.0;
    forall k | p <= k < p + 10
      ensures vertices[k] == VertexFloat(height, segments, xs, zs, k)
    {
      ColumnOf(k, i);
    }
  }

  /** The six indices of segment `i`. */
  method WriteSegment(indices: array<nat>, segments: nat, i: nat)
    requires i < segments && indices.Length == 6 * segments
    modifies indices
    ensures forall k :: 0 <= k < indices.Length && !(6 * i <= k < 6 * i + 6) ==> indices[k] == old(indices[k])
    ensures forall k :: 6 * i <= k < 6 * i + 6 ==> indices[k] == IndexAt(k) < 2 * (segments + 1)
  {
    var top0 := 2 * i;
    var bot0 := top0 + 1;
    var top1 := top0 + 2;
    var bot1 := bot0 + 2;
    var q := 6 * i;
    indices[q] := top0;
    indices[q + 1] := top1;
    indices[q + 2] := bot0;
    indices[q + 3] := bot0;
    indices[q + 4] := top1;
    indices[q + 5] := bot1;
    SegmentTriangles(i);
    assert bot1 < 2 * (segments + 1);
    forall k | q <= k < q + 6
      ensures indices[k] == IndexAt(k) < 2 * (segments + 1)
    {
      assert k == q || k == q + 1 || k == q + 2 || k == q + 3 || k == q + 4 || k == q + 5;
    }
  }

  function Add(a: Vec3, b: Vec3): Vec3 { Vec3(a.x + b.x, a.y + b.y, a.z + b.z) }
  function Sub(a: Vec3, b: Vec3): Vec3 { Vec3(a.x - b.x, a.y - b.y, a.z - b.z) }
  function Scale(a: Vec3, s: real): Vec3 { Vec3(a.x * s, a.y * s, a.z * s) }
  function LengthSq(a: Vec3): real { a.x * a.x + a.y * a.y + a.z * a.z }

  /** `XrVector3f_Lerp`: the point a fraction `f` of the way from `a` to `b`. */
  function Lerp(a: Vec3, b: Vec3, f: real): (r: Vec3)
    ensures a == b ==> r == a
    ensures f == 0.0 ==> r == a
    ensures f == 1.0 ==> r == b
    ensures r.x - a.x == f * (b.x - a.x) && r.y - a.y == f * (b.y - a.y) && r.z - a.z == f * (b.z - a.z)
  {
    Vec3(a.x + f * (b.x - a.x), a.y + f * (b.y - a.y), a.z + f * (b.z - a.z))
  }

  /**
   * `EnsureNewPositionInExpectedDistance`: `distance` is the length of
   * `position - head`. A position within the tolerance of 2.5 m stays put;
   * any other is moved along the same ray onto the 2.5 m sphere.
   */
  function EnsureDistance(head: Vec3, position: Vec3, distance: real): (r: Vec3)
    requires distance > 0.0
  {
    var delta := if distance > TargetDistance then distance - TargetDistance else TargetDistance - distance;
    if delta > DistanceTolerance then Add(head, Scale(Sub(position, head), TargetDistance / distance))
    else position
  }

  /** The ensured position is within the tolerance of 2.5 m of the head, or exactly on the sphere. */
  lemma EnsureDistanceOnSphere(head: Vec3, position: Vec3, distance: real)
    requires distance > 0.0 && distance * distance == LengthSq(Sub(position, head))
    ensures var r := EnsureDistance(head, position, distance);
      && (-DistanceTolerance <= distance - TargetDistance <= DistanceTolerance ==> r == position)
      && (!(-DistanceTolerance <= distance - TargetDistance <= DistanceTolerance) ==>
            LengthSq(Sub(r, head)) == TargetDistance * TargetDistance)
  {
    var d := Sub(position, head);
    var s := TargetDistance / distance;
    var r := EnsureDistance(head, position, distance);
    if !(-DistanceTolerance <= distance - TargetDistance <= DistanceTolerance) {
      assert Sub(r, head) == Scale(d, s);
      assert LengthSq(Scale(d, s)) == s * s * LengthSq(d);
      assert s * distance == TargetDistance;
      calc {
        s * s * LengthSq(d);
        s * s * (distance * distance);
        (s * distance) * (s * distance);
      }
    }
  }

  /** The placement globals: `positionsInitialized`, `updateTarget`, `currentPosition`, `targetPosition`. */
  datatype Placement = Placement(initialized: bool, updateTarget: bool, current: Vec3, target: Vec3)

  /**
   * The hysteresis of follow mode, before interpolation: a target less than
   * 0.1 m from the point in front stays and stops updating; one more than
   * 1.5 m away, or one still updating, moves there; beyond 3 m the screen
   * jumps to it.
   */
  function Follow(p: Placement, inFront: Vec3, drift: real): (r: Placement)
    ensures drift < KeepTargetBelow ==> r == p.(updateTarget := false)
    ensures KeepTargetBelow <= drift && (drift > MoveTargetAbove || p.updateTarget) ==>
      r.target == inFront && r.updateTarget && r.current == (if drift > SnapAbove then inFront else p.current)
    ensures KeepTargetBelow <= drift <= MoveTargetAbove && !p.updateTarget ==> r == p
  {
    if drift < KeepTargetBelow then p.(updateTarget := false)
    else if drift > MoveTargetAbove || p.updateTarget then
      p.(target := inFront, updateTarget := true, current := if drift > SnapAbove then inFront else p.current)
    else p
  }

  /** The point follow mode interpolates to: one hundredth of the way from the current position to the target. */
  function Lerped(p: Placement, inFront: Vec3, drift: real): Vec3
  {
    var q := Follow(p, inFront, drift);
    Lerp(q.current, q.target, LerpFraction)
  }

  /**
   * The caller-supplied lengths are the ones the call measures: `drift` is
   * the distance of the target from the point in front and `distance` that
   * of the interpolated position from the head. Only follow mode on an
   * initialized placement measures anything.
   */
  predicate Measured(p: Placement, mode: int, inFront: Vec3, head: Vec3, drift: real, distance: real)
  {
    p.initialized && mode == 1 ==>
      && drift >= 0.0 && drift * drift == LengthSq(Sub(p.target, inFront))
      && distance > 0.0 && distance * distance == LengthSq(Sub(Lerped(p, inFront, drift), head))
  }

  /**
   * One call of `GetCurrentVirtualScreenPosition` with virtual-screen mode
   * `mode`: `inFront` is the point 2.5 m ahead of the left eye, `drift` the
   * distance of the target from it and `distance` that of the interpolated
   * position from the head.
   */
  function Step(p: Placement, mode: int, inFront: Vec3, head: Vec3, drift: real, distance: real): (r: Placement)
    requires p.initialized && mode == 1 ==> distance > 0.0
    ensures r.initialized
    ensures !p.initialized ==> r.current == inFront && r.target == inFront && r.updateTarget == p.updateTarget
    ensures p.initialized && mode != 1 ==> r == p
  {
    if !p.initialized then p.(current := inFront, target := inFront, initialized := true)
    else if mode == 1 then
      var q := Follow(p, inFront, drift);
      q.(current := EnsureDistance(head, Lerp(q.current, q.target, LerpFraction), distance))
    else p
  }

  /**
   * In follow mode, each step leaves the screen within the tolerance of
   * 2.5 m from the head, and a jump that lands the screen on a point in
   * front at 2.5 m puts it exactly there.
   */
  lemma FollowKeepsDistance(p: Placement, inFront: Vec3, head: Vec3, drift: real, distance: real)
    requires p.initialized && distance > 0.0
    requires distance * distance == LengthSq(Sub(Lerped(p, inFront, drift), head))
    ensures var r := Step(p, 1, inFront, head, drift, distance);
      (TargetDistance - DistanceTolerance) * (TargetDistance - DistanceTolerance) <= LengthSq(Sub(r.current, head))
        <= (TargetDistance + DistanceTolerance) * (TargetDistance + DistanceTolerance)
    ensures drift > SnapAbove && -DistanceTolerance <= distance - TargetDistance <= DistanceTolerance ==>
      Step(p, 1, inFront, head, drift, distance).current == inFront
  {
    var lerped := Lerped(p, inFront, drift);
    EnsureDistanceOnSphere(head, lerped, distance);
    var r := Step(p, 1, inFront, head, drift, distance);
    if -DistanceTolerance <= distance - TargetDistance <= DistanceTolerance {
      SquareBetween(TargetDistance - DistanceTolerance, distance, TargetDistance + DistanceTolerance);
    }
  }

  lemma SquareBetween(lo: real, x: real, hi: real)
    requires 0.0 <= lo <= x <= hi
    ensures lo * lo <= x * x <= hi * hi
  {
    assert lo * lo <= lo * x <= x * x;
    assert x * x <= x * hi <= hi * hi;
  }

  /** The placement globals of the virtual screen. */
  class Screen {
    var positionsInitialized: bool
    var updateTarget: bool
    var currentPosition: Vec3
    var targetPosition: Vec3

    constructor ()
      ensures !positionsInitialized && updateTarget
    {
      positionsInitialized, updateTarget := false, true;
      currentPosition, targetPosition := Vec3(0.0, 0.0, 0.0), Vec3(0.0, 0.0, 0.0);
    }

    function State(): Placement
      reads this
    {
      Placement(positionsInitialized, updateTarget, currentPosition, targetPosition)
    }

    /**
     * `GetCurrentVirtualScreenPosition`: moves the placement one step and
     * returns the current position.
     */
    method GetCurrentVirtualScreenPosition(mode: int, inFront: Vec3, head: Vec3, drift: real, distance: real)
      returns (position: Vec3)
      requires Measured(State(), mode, inFront, head, drift, distance)
      modifies this
      ensures State() == Step(old(State()), mode, inFront, head, drift, distance)
      ensures position == currentPosition
    {
      if !positionsInitialized {
        currentPosition := inFront;
        targetPosition := inFront;
      } else if mode == 1 {
        if drift < KeepTargetBelow {
          updateTarget := false;
        } else if drift > MoveTargetAbove || updateTarget {
          targetPosition := inFront;
          updateTarget := true;
          if drift > SnapAbove {
            currentPosition := targetPosition;
          }
        }
        var lerped := Lerp(currentPosition, targetPosition, LerpFraction);
        lerped := EnsureDistance(head, lerped, distance);
        currentPosition := lerped;
      }
      positionsInitialized := true;
      position := currentPosition;
    }

    /** `VR_VirtualScreen_ResetPosition`: the next call places the screen afresh. */
    method ResetPosition()
      modifies this
      ensures !positionsInitialized && updateTarget
      ensures currentPosition == old(currentPosition) && targetPosition == old(targetPosition)
    {
      positionsInitialized := false;
      updateTarget := true;
    }
  }

  /** After a reset the first call puts both positions at the point in front, whatever the mode. */
  lemma ResetThenPlace(p: Placement, mode: int, inFront: Vec3, head: Vec3, drift: real, distance: real)
    ensures var r := Step(p.(initialized := false, updateTarget := true), mode, inFront, head, drift, distance);
      r.current == inFront && r.target == inFront && r.initialized && r.updateTarget
  {
  }
}
