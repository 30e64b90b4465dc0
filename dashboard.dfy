/** The dashboard's session state and its event handlers: toggling the
    camera, starting and stopping a recording, and the polling tick that
    feeds the 3D views and the line chart.

    Each handler sends one request to the remote service; the reply is an
    input of the handler rather than a network exchange, and the handler's
    effect is its synchronous part followed by the callback for that reply.
 */
module Dashboard {
  import opened Rolling
  import opened Pose
  import opened LineChart

  /** How a control request ended: a reply whose `status` is `'success'`, a
      reply with any other status, or a rejected `fetch` (or a body that is
      not JSON). A JSON `null` body counts as `Failed` when starting the
      camera, because reading its `status` throws into the catch handler,
      and as `NotSuccess` when stopping it, because that callback never
      reads the body; in the recording handlers it throws into a promise
      with no catch handler and so changes nothing, like `NotSuccess`. */
  datatype Outcome = Success | NotSuccess | Failed

  /** How a `/pose_data` poll ended. `PoseSuccess(None)` is a success reply
      whose `data` field is missing or falsy. */
  datatype PoseReply = PoseSuccess(data: Option<seq<Landmark>>) | PoseNotSuccess | PoseFailed

  /** A timer id as `setInterval` returns it: always greater than zero, so a
      stored id is truthy. */
  type Handle = h: int | h > 0 witness 1

  class Session {
    var cameraActive: bool
    var recording: bool
    /** `updateInterval`: the id of the polling timer, or `null`. */
    var updateInterval: Option<Handle>
    var cameraButtonEnabled: bool
    var recordButtonEnabled: bool
    var stopButtonEnabled: bool
    var chart: ChartData

    /** Polling runs exactly while the camera is active. */
    ghost predicate Valid()
      reads this, chart
    {
      chart.Valid() && (cameraActive <==> updateInterval.Some?)
    }

    /** The globals as the script declares them; the buttons start in
        whatever state the page gives them. */
    constructor (cameraButton: bool, recordButton: bool, stopButton: bool)
      ensures Valid() && fresh(chart)
      ensures !cameraActive && !recording && updateInterval == None
      ensures cameraButtonEnabled == cameraButton
      ensures recordButtonEnabled == recordButton && stopButtonEnabled == stopButton
      ensures chart.Samples() == []
    {
      cameraActive, recording, updateInterval := false, false, None;
      cameraButtonEnabled, recordButtonEnabled, stopButtonEnabled := cameraButton, recordButton, stopButton;
      chart := new ChartData();
    }

    /** `startUpdating`: store the id of a new 100 ms polling timer,
        overwriting any id already stored without clearing its timer. */
    method StartUpdating(timer: Handle)
      modifies this`updateInterval
      ensures updateInterval == Some(timer)
    {
      updateInterval := Some(timer);
    }

    /** `stopUpdating`: clear the stored timer, if any, and forget its id.
        Returns the id handed to `clearInterval`; a second call clears
        nothing. */
    method StopUpdating() returns (cleared: Option<Handle>)
      modifies this`updateInterval
      ensures cleared == old(updateInterval)
      ensures updateInterval == None
    {
      cleared := None;
      if updateInterval.Some? {
        cleared := updateInterval;
        updateInterval := None;
      }
    }

    /** `toggleCamera`. With the camera off: disable the camera button, ask
        to start the camera, and on a success reply mark it active, enable
        the camera and record buttons and start polling with the timer id
        `timer`; a transport failure re-enables the camera button; any other
        status leaves it disabled. With the camera on: ask to stop it and,
        on any reply whatever its status, mark it inactive, disable both
        recording buttons, stop polling and clear the recording flag; a
        transport failure changes nothing. Returns the timer id handed to
        `clearInterval`, if any. */
    method ToggleCamera(reply: Outcome, timer: Handle) returns (cleared: Option<Handle>)
      requires Valid()
      modifies this
      ensures Valid() && chart == old(chart)
      ensures cleared == if old(cameraActive) && reply != Failed then old(updateInterval) else None
      ensures !old(cameraActive) && reply == Success ==>
                && cameraActive && updateInterval == Some(timer)
                && cameraButtonEnabled && recordButtonEnabled
                && recording == old(recording) && stopButtonEnabled == old(stopButtonEnabled)
      ensures !old(cameraActive) && reply == NotSuccess ==>
                && !cameraActive && updateInterval == None && !cameraButtonEnabled
                && recording == old(recording)
                && recordButtonEnabled == old(recordButtonEnabled) && stopButtonEnabled == old(stopButtonEnabled)
      ensures !old(cameraActive) && reply == Failed ==>
                && !cameraActive && updateInterval == None && cameraButtonEnabled
                && recording == old(recording)
                && recordButtonEnabled == old(recordButtonEnabled) && stopButtonEnabled == old(stopButtonEnabled)
      ensures old(cameraActive) && reply != Failed ==>
                && !cameraActive && updateInterval == None && !recording
                && !recordButtonEnabled && !stopButtonEnabled
                && cameraButtonEnabled == old(cameraButtonEnabled)
      ensures old(cameraActive) && reply == Failed ==> unchanged(this)
    {
      cleared := None;
      if !cameraActive {
        cameraButtonEnabled := false;
        match reply {
          case Success =>
            cameraActive := true;
            cameraButtonEnabled := true;
            recordButtonEnabled := true;
            StartUpdating(timer);
          case NotSuccess =>
          case Failed =>
            cameraButtonEnabled := true;
        }
      } else {
        if reply != Failed {
          cameraActive := false;
          recordButtonEnabled := false;
          stopButtonEnabled := false;
          cleared := StopUpdating();
          recording := false;
        }
      }
    }

    /** `startRecording`: on a success reply mark the session recording,
        swap which recording button is enabled and replace the chart by an
        empty one; any other outcome changes nothing. The camera state is
        not consulted. */
    method StartRecording(reply: Outcome)
      requires Valid()
      modifies this
      ensures Valid()
      ensures reply == Success ==>
                && recording && !recordButtonEnabled && stopButtonEnabled
                && fresh(chart) && chart.Samples() == [] && chart.appends == 0
                && cameraActive == old(cameraActive) && updateInterval == old(updateInterval)
                && cameraButtonEnabled == old(cameraButtonEnabled)
      ensures reply != Success ==> unchanged(this) && unchanged(chart)
    {
      if reply == Success {
        recording := true;
        recordButtonEnabled := false;
        stopButtonEnabled := true;
        chart := new ChartData();
      }
    }

    /** `stopRecording`: on a success reply clear the recording flag and
        swap which recording button is enabled; any other outcome changes
        nothing. The chart is kept. */
    method StopRecording(reply: Outcome)
      requires Valid()
      modifies this
      ensures Valid() && chart == old(chart)
      ensures reply == Success ==>
                && !recording && recordButtonEnabled && !stopButtonEnabled
                && cameraActive == old(cameraActive) && updateInterval == old(updateInterval)
                && cameraButtonEnabled == old(cameraButtonEnabled)
      ensures reply != Success ==> unchanged(this)
    {
      if reply == Success {
        recording := false;
        recordButtonEnabled := true;
        stopButtonEnabled := false;
      }
    }

    /** `updateVisualizations`, one polling tick: only a success reply that
        carries landmarks is drawn, first as the skeleton of the 3D views
        (returned in `drawn`), then as one more sample of the line chart. A
        sample too short for the joint values throws after the skeleton is
        drawn and leaves the chart as it was. */
    method UpdateVisualizations(reply: PoseReply) returns (drawn: Option<Lines>)
      requires Valid()
      modifies chart
      ensures Valid()
      ensures drawn.Some? <==> reply.PoseSuccess? && reply.data.Some?
      ensures drawn.Some? ==> IsSkeleton(drawn.value, reply.data.value)
      ensures drawn.Some? && JointAngles(reply.data.value).Some? ==>
                var j := JointAngles(reply.data.value).value;
                && chart.appends == old(chart.appends) + 1
                && chart.Samples() == Window(old(chart.Samples()) + [Sample(|old(chart.timestamps)|, j.joint1, j.joint2, j.joint3)],
                                             MaxDataPoints)
      ensures !(drawn.Some? && JointAngles(reply.data.value).Some?) ==> unchanged(chart)
    {
      drawn := None;
      if reply.PoseSuccess? && reply.data.Some? {
        var landmarks := reply.data.value;
        var lines := BuildSegments(landmarks);
        drawn := Some(lines);
        chart.UpdateLineChart(landmarks);
      }
    }
  }

  /** A session as a user drives it: the camera starts, five polls arrive
      and are stamped 0..4, a recording starts and empties the chart, and
      stopping the camera stops polling and recording. */
  method SessionScenario(pose: seq<Landmark>, timer: Handle)
    requires |pose| >= 33
  {
    var s := new Session(true, false, false);
    var cleared := s.ToggleCamera(Success, timer);
    assert cleared == None;
    assert s.cameraActive && s.updateInterval == Some(timer) && s.recordButtonEnabled;
    var n := 0;
    while n < 5
      invariant 0 <= n <= 5
      invariant s.Valid() && s.chart.appends == n && s.cameraActive
      modifies s.chart
    {
      var drawn := s.UpdateVisualizations(PoseSuccess(Some(pose)));
      n := n + 1;
    }
    TimestampsCountFromZero(5);
    assert s.chart.timestamps == [0, 1, 2, 3, 4];
    var ignored := s.UpdateVisualizations(PoseFailed);
    assert s.chart.timestamps == [0, 1, 2, 3, 4];
    s.StartRecording(Success);
    assert s.recording && s.chart.Samples() == [];
    cleared := s.ToggleCamera(NotSuccess, timer);
    assert cleared == Some(timer);
    assert !s.cameraActive && !s.recording && s.updateInterval == None;
  }
}
