/** Pose samples as the dashboard receives them from the pose endpoint, and
    the two things it derives from one: the three joint values appended to
    the line chart, and the line segments of the skeleton drawn in the two
    3D views.
 */
module Pose {

  datatype Option<T> = None | Some(value: T)

  /** One body landmark: normalised coordinates, indexed by the MediaPipe
      pose convention (11/12 shoulders, 13/14 elbows, 15/16 wrists,
      23/24 hips, 25/26 knees, 27/28 ankles, 29..32 feet). */
  datatype Landmark = Landmark(x: real, y: real, z: real)

  datatype Axis = X | Y | Z

  function Coord(l: Landmark, a: Axis): real
  {
    match a
    case X => l.x
    case Y => l.y
    case Z => l.z
  }

  /** A JavaScript value placed in a plot array: a number, `undefined` (read
      past the end of an array), or the `null` that lifts the pen between
      two segments. */
  datatype PlotValue = Num(v: real) | Undefined | Null

  /** The three line-segment arrays handed to the 3D plots. */
  datatype Lines = Lines(x: seq<PlotValue>, y: seq<PlotValue>, z: seq<PlotValue>)

  /** The three joint values of one sample: vertical displacement proxies
      (elbow to wrist, knee to ankle, shoulder to hip), not angles. */
  datatype Joints = Joints(joint1: real, joint2: real, joint3: real)

  function Abs(v: real): (r: real)
    ensures r >= 0.0 && (r == v || r == -v)
  {
    if v < 0.0 then -v else v
  }

  /** `landmarks.map(l => l.x)` (or `.y`, `.z`). */
  function Project(landmarks: seq<Landmark>, a: Axis): seq<real>
  {
    seq(|landmarks|, i requires 0 <= i < |landmarks| => Coord(landmarks[i], a))
  }

  /** Reading `arr[i]` in JavaScript: past the end it yields `undefined`. */
  function Lookup(arr: seq<real>, i: nat): PlotValue
  {
    if i < |arr| then Num(arr[i]) else Undefined
  }

  /** The coordinate on axis a of landmark i, or `undefined` when the sample
      has no landmark i. */
  function At(landmarks: seq<Landmark>, i: nat, a: Axis): PlotValue
  {
    if i < |landmarks| then Num(Coord(landmarks[i], a)) else Undefined
  }

  /** The skeleton's connectivity table: arms, shoulder and hip spans,
      torso sides, legs and feet. */
  const Connections: seq<(nat, nat)> := [
    (11, 12), (11, 13), (13, 15), (12, 14), (14, 16),
    (11, 23), (12, 24), (23, 24), (23, 25), (24, 26),
    (25, 27), (26, 28), (27, 29), (28, 30), (29, 31), (30, 32)
  ]

  /** Every landmark index the table names lies in 11..32, and 32 is among
      them, so a sample needs 33 landmarks to give every segment both ends. */
  lemma ConnectionsInRange()
    ensures |Connections| == 16
    ensures forall k :: 0 <= k < |Connections| ==>
              11 <= Connections[k].0 <= 32 && 11 <= Connections[k].1 <= 32
    ensures Connections[15].1 == 32
  {
  }

  /** Layout of one segment array on axis a: connection k occupies positions
      3k (its first landmark), 3k+1 (its second landmark) and 3k+2 (the
      `null` separator). */
  ghost predicate Strip(line: seq<PlotValue>, landmarks: seq<Landmark>, a: Axis, count: nat)
    requires count <= |Connections|
  {
    && |line| == 3 * count
    && forall k :: 0 <= k < count ==>
         && line[3 * k] == At(landmarks, Connections[k].0, a)
         && line[3 * k + 1] == At(landmarks, Connections[k].1, a)
         && line[3 * k + 2] == Null
  }

  /** The skeleton of a sample: the three segment arrays laid out alike. */
  ghost predicate IsSkeleton(lines: Lines, landmarks: seq<Landmark>)
  {
    && Strip(lines.x, landmarks, X, |Connections|)
    && Strip(lines.y, landmarks, Y, |Connections|)
    && Strip(lines.z, landmarks, Z, |Connections|)
  }

  /** The joint values `|y13 - y15| * 100`, `|y25 - y27| * 100` and
      `|y11 - y23| * 100`. Reading a landmark the sample does not have throws
      in the dashboard, so there is no value unless landmark 27 exists. */
  function JointAngles(landmarks: seq<Landmark>): (r: Option<Joints>)
    ensures r.Some? <==> |landmarks| > 27
    ensures r.Some? ==> r.value.joint1 >= 0.0 && r.value.joint2 >= 0.0 && r.value.joint3 >= 0.0
    ensures r.Some? ==> (r.value.joint1 == 0.0 <==> landmarks[13].y == landmarks[15].y)
    ensures r.Some? ==> (r.value.joint2 == 0.0 <==> landmarks[25].y == landmarks[27].y)
    ensures r.Some? ==> (r.value.joint3 == 0.0 <==> landmarks[11].y == landmarks[23].y)
  {
    if |landmarks| <= 27 then None
    else
      Some(Joints(Abs(landmarks[13].y - landmarks[15].y) * 100.0,
                  Abs(landmarks[25].y - landmarks[27].y) * 100.0,
                  Abs(landmarks[11].y - landmarks[23].y) * 100.0))
  }

  /** The joint values depend on nothing but the heights of landmarks 11, 13,
      15, 23, 25 and 27: the x and z coordinates and every other landmark
      play no part. */
  lemma JointsFromHeights(p: seq<Landmark>, q: seq<Landmark>)
    requires |p| > 27 && |q| > 27
    requires forall i :: i in {11, 13, 15, 23, 25, 27} ==> p[i].y == q[i].y
    ensures JointAngles(p) == JointAngles(q)
  {
    assert p[11].y == q[11].y && p[13].y == q[13].y && p[15].y == q[15].y;
    assert p[23].y == q[23].y && p[25].y == q[25].y && p[27].y == q[27].y;
  }

  /** A worked instance: an elbow at height 0.2 above a wrist at 0.5 gives
      joint1 = 30, knees and ankles level give joint2 = 0, and a shoulder
      at 0.3 over a hip at 0.55 gives joint3 = 25. */
  lemma JointsWorkedExample(p: seq<Landmark>)
    requires |p| > 27
    requires p[13].y == 0.2 && p[15].y == 0.5
    requires p[25].y == p[27].y
    requires p[11].y == 0.3 && p[23].y == 0.55
    ensures JointAngles(p) == Some(Joints(30.0, 0.0, 25.0))
  {
  }

  /** Pushing connection k's two endpoints, read from the projected
      coordinate array, and a separator extends a strip by one connection. */
  lemma StripExtend(line: seq<PlotValue>, landmarks: seq<Landmark>, a: Axis, k: nat)
    requires k < |Connections| && Strip(line, landmarks, a, k)
    ensures var coords := Project(landmarks, a);
            Strip(line + [Lookup(coords, Connections[k].0), Lookup(coords, Connections[k].1), Null],
                  landmarks, a, k + 1)
  {
    var coords := Project(landmarks, a);
    var ext := line + [Lookup(coords, Connections[k].0), Lookup(coords, Connections[k].1), Null];
    forall j | 0 <= j < k + 1
      ensures && ext[3 * j] == At(landmarks, Connections[j].0, a)
              && ext[3 * j + 1] == At(landmarks, Connections[j].1, a)
              && ext[3 * j + 2] == Null
    {
      if j < k {
        assert ext[3 * j] == line[3 * j] && ext[3 * j + 1] == line[3 * j + 1] && ext[3 * j + 2] == line[3 * j + 2];
      }
    }
  }

  /** What position i of a full strip holds. */
  lemma StripAt(line: seq<PlotValue>, landmarks: seq<Landmark>, a: Axis, i: nat)
    requires Strip(line, landmarks, a, |Connections|)
    requires i < |line|
    ensures line[i] == if i % 3 == 0 then At(landmarks, Connections[i / 3].0, a)
                       else if i % 3 == 1 then At(landmarks, Connections[i / 3].1, a)
                       else Null
  {
    var k := i / 3;
    assert 0 <= k < |Connections|;
    assert i == 3 * k + i % 3;
  }

  /** A full strip holds no `undefined` exactly when the sample has all 33
      landmarks. */
  lemma StripDefinedIff(line: seq<PlotValue>, landmarks: seq<Landmark>, a: Axis)
    requires Strip(line, landmarks, a, |Connections|)
    ensures (forall i :: 0 <= i < |line| ==> line[i] != Undefined) <==> |landmarks| >= 33
  {
    ConnectionsInRange();
    if |landmarks| >= 33 {
      forall i | 0 <= i < |line| ensures line[i] != Undefined {
        StripAt(line, landmarks, a, i);
      }
    } else {
      assert line[3 * 15 + 1] == Undefined;
    }
  }

  /** Two full strips of one sample have their separators and their
      `undefined` entries at the same positions. */
  lemma StripsAlike(l1: seq<PlotValue>, a1: Axis, l2: seq<PlotValue>, a2: Axis, landmarks: seq<Landmark>)
    requires Strip(l1, landmarks, a1, |Connections|) && Strip(l2, landmarks, a2, |Connections|)
    ensures forall i :: 0 <= i < |l1| ==>
              (l1[i] == Null <==> l2[i] == Null) && (l1[i] == Undefined <==> l2[i] == Undefined)
  {
    forall i | 0 <= i < |l1|
      ensures (l1[i] == Null <==> l2[i] == Null) && (l1[i] == Undefined <==> l2[i] == Undefined)
    {
      StripAt(l1, landmarks, a1, i);
      StripAt(l2, landmarks, a2, i);
    }
  }

  /** The segment builder of the 3D views: for each connection push its two
      endpoints and a `null` separator onto each of the three arrays. */
  method BuildSegments(landmarks: seq<Landmark>) returns (lines: Lines)
    ensures IsSkeleton(lines, landmarks)
    ensures |lines.x| == |lines.y| == |lines.z| == 48
    ensures (forall i :: 0 <= i < |lines.x| ==> lines.x[i] != Undefined) <==> |landmarks| >= 33
    ensures forall i :: 0 <= i < |lines.x| ==>
              && (lines.x[i] == Null <==> lines.y[i] == Null)
              && (lines.y[i] == Null <==> lines.z[i] == Null)
              && (lines.x[i] == Undefined <==> lines.y[i] == Undefined)
              && (lines.y[i] == Undefined <==> lines.z[i] == Undefined)
  {
    var x, y, z := Project(landmarks, X), Project(landmarks, Y), Project(landmarks, Z);
    var lx, ly, lz := [], [], [];
    var k := 0;
    while k < |Connections|
      invariant 0 <= k <= |Connections|
      invariant Strip(lx, landmarks, X, k)
      invariant Strip(ly, landmarks, Y, k)
      invariant Strip(lz, landmarks, Z, k)
    {
      var conn := Connections[k];
      StripExtend(lx, landmarks, X, k);
      StripExtend(ly, landmarks, Y, k);
      StripExtend(lz, landmarks, Z, k);
      lx := lx + [Lookup(x, conn.0), Lookup(x, conn.1), Null];
      ly := ly + [Lookup(y, conn.0), Lookup(y, conn.1), Null];
      lz := lz + [Lookup(z, conn.0), Lookup(z, conn.1), Null];
      k := k + 1;
    }
    lines := Lines(lx, ly, lz);
    StripDefinedIff(lx, landmarks, X);
    StripsAlike(lx, X, ly, Y, landmarks);
    StripsAlike(ly, Y, lz, Z, landmarks);
  }
}
