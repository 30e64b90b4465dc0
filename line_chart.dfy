/** The rolling line chart of joint values: four parallel arrays
    (timestamps and the three joints) capped at MaxDataPoints entries, grown
    by one sample per successful poll and replaced by empty arrays when a
    recording starts.
 */
module LineChart {
  import opened Rolling
  import opened Pose

  /** `MAX_DATA_POINTS`. */
  const MaxDataPoints: nat := 50

  /** One row across the four arrays. */
  datatype Sample = Sample(timestamp: int, joint1: real, joint2: real, joint3: real)

  function Min(a: int, b: int): int
  {
    if a <= b then a else b
  }

  /** The rows of four equally long parallel arrays. */
  function Zip(ts: seq<int>, j1: seq<real>, j2: seq<real>, j3: seq<real>): seq<Sample>
    requires |j1| == |ts| && |j2| == |ts| && |j3| == |ts|
  {
    seq(|ts|, i requires 0 <= i < |ts| => Sample(ts[i], j1[i], j2[i], j3[i]))
  }

  /** Pushing one value onto each of four parallel arrays pushes their row. */
  lemma ZipPush(ts: seq<int>, j1: seq<real>, j2: seq<real>, j3: seq<real>,
                t: int, a: real, b: real, c: real, cap: nat)
    requires |j1| == |ts| && |j2| == |ts| && |j3| == |ts| && |ts| <= cap
    ensures |Push(j1, a, cap)| == |Push(j2, b, cap)| == |Push(j3, c, cap)| == |Push(ts, t, cap)|
    ensures Zip(Push(ts, t, cap), Push(j1, a, cap), Push(j2, b, cap), Push(j3, c, cap))
            == Push(Zip(ts, j1, j2, j3), Sample(t, a, b, c), cap)
  {
  }

  /** The timestamps array after k appends to an empty chart: each append
      pushes the array's length before the push. */
  ghost function Timeline(k: nat): seq<int>
  {
    if k == 0 then [] else var ts := Timeline(k - 1); Push(ts, |ts|, MaxDataPoints)
  }

  /** The timestamp at position i after k appends: i while the chart is
      filling, then the window slides over 0, 1, ..., 49 followed by 50s,
      because a full array always has length 50 before the push. */
  function StampAt(k: nat, i: nat): int
  {
    if k <= MaxDataPoints then i else Min(i + (k - MaxDataPoints), MaxDataPoints)
  }

  /** Closed form of the timestamps after k appends. */
  lemma {:induction false} TimelineShape(k: nat)
    ensures |Timeline(k)| == Min(k, MaxDataPoints)
    ensures forall i :: 0 <= i < |Timeline(k)| ==> Timeline(k)[i] == StampAt(k, i)
  {
    if k > 0 {
      TimelineShape(k - 1);
      var ts := Timeline(k - 1);
      var next := Timeline(k);
      assert next == Push(ts, |ts|, MaxDataPoints);
      if k - 1 >= MaxDataPoints {
        assert next == ts[1..] + [MaxDataPoints];
        forall i | 0 <= i < |next| ensures next[i] == StampAt(k, i) {
          if i < |next| - 1 {
            assert next[i] == ts[i + 1];
          }
        }
      }
    }
  }

  /** After the chart is reset, the first k <= 50 appends are stamped
      0, 1, ..., k - 1. */
  lemma TimestampsCountFromZero(k: nat)
    requires k <= MaxDataPoints
    ensures Timeline(k) == seq(k, i => i)
  {
    TimelineShape(k);
  }

  /** Once the chart holds 50 samples, every append is stamped 50 and the
      chart stays at 50 samples. */
  lemma FullChartStampsFifty(k: nat)
    requires k >= MaxDataPoints
    ensures |Timeline(k)| == MaxDataPoints
    ensures |Timeline(k + 1)| == MaxDataPoints && Timeline(k + 1)[MaxDataPoints - 1] == MaxDataPoints
  {
    TimelineShape(k);
    TimelineShape(k + 1);
  }

  /** Timestamps never decrease along the chart, and lie in 0..50. */
  lemma TimelineNonDecreasing(k: nat)
    ensures forall i, j :: 0 <= i <= j < |Timeline(k)| ==> Timeline(k)[i] <= Timeline(k)[j]
    ensures forall i :: 0 <= i < |Timeline(k)| ==> 0 <= Timeline(k)[i] <= MaxDataPoints
  {
    TimelineShape(k);
  }

  /** The chart data: four parallel arrays updated in place. */
  class ChartData {
    var timestamps: seq<int>
    var joint1: seq<real>
    var joint2: seq<real>
    var joint3: seq<real>
    /** Appends since this chart was created. */
    ghost var appends: nat

    ghost predicate Valid()
      reads this
    {
      && |joint1| == |timestamps| && |joint2| == |timestamps| && |joint3| == |timestamps|
      && |timestamps| <= MaxDataPoints
      && timestamps == Timeline(appends)
    }

    /** The chart's rows, oldest first. */
    ghost function Samples(): seq<Sample>
      reads this
      requires Valid()
    {
      Zip(timestamps, joint1, joint2, joint3)
    }

    /** The empty chart: the initial value and the reset in `startRecording`. */
    constructor ()
      ensures Valid() && appends == 0
      ensures timestamps == [] && joint1 == [] && joint2 == [] && joint3 == []
      ensures Samples() == []
    {
      timestamps, joint1, joint2, joint3 := [], [], [], [];
      appends := 0;
    }

    /** `updateLineChart`: stamp the sample with the current length, push one
        entry onto every array, then shift one entry off every array if the
        length exceeds MaxDataPoints. A sample without landmark 27 makes the
        joint computation throw before anything is pushed. */
    method UpdateLineChart(landmarks: seq<Landmark>)
      requires Valid()
      modifies this
      ensures Valid()
      ensures JointAngles(landmarks).None? ==> unchanged(this)
      ensures JointAngles(landmarks).Some? ==>
                var j := JointAngles(landmarks).value;
                && appends == old(appends) + 1
                && timestamps == Push(old(timestamps), |old(timestamps)|, MaxDataPoints)
                && joint1 == Push(old(joint1), j.joint1, MaxDataPoints)
                && joint2 == Push(old(joint2), j.joint2, MaxDataPoints)
                && joint3 == Push(old(joint3), j.joint3, MaxDataPoints)
                && Samples() == Window(old(Samples()) + [Sample(|old(timestamps)|, j.joint1, j.joint2, j.joint3)],
                                       MaxDataPoints)
    {
      var timestamp := |timestamps|;
      var angles := JointAngles(landmarks);
      if angles.None? {
        return;
      }
      var j := angles.value;
      ghost var ts, j1, j2, j3 := timestamps, joint1, joint2, joint3;

      timestamps := timestamps + [timestamp];
      joint1 := joint1 + [j.joint1];
      joint2 := joint2 + [j.joint2];
      joint3 := joint3 + [j.joint3];
      if |timestamps| > MaxDataPoints {
        timestamps := timestamps[1..];
        joint1 := joint1[1..];
        joint2 := joint2[1..];
        joint3 := joint3[1..];
      }
      appends := appends + 1;
      assert timestamps == Push(ts, timestamp, MaxDataPoints) == Timeline(appends);
      assert joint1 == Push(j1, j.joint1, MaxDataPoints);
      assert joint2 == Push(j2, j.joint2, MaxDataPoints);
      assert joint3 == Push(j3, j.joint3, MaxDataPoints);
      ZipPush(ts, j1, j2, j3, timestamp, j.joint1, j.joint2, j.joint3, MaxDataPoints);
      PushIsWindow(Zip(ts, j1, j2, j3), Sample(timestamp, j.joint1, j.joint2, j.joint3), MaxDataPoints);
    }
  }
}
