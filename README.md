# Pose-tracking dashboard controller, modelled in Dafny

The dashboard script `static/js/main.js` drives a remote camera and
pose-estimation service from the browser. It toggles the camera, starts
and stops a recording, and polls the latest pose every 100 ms. Each pose
is drawn as a skeleton in two 3D views, and three joint values derived
from it are appended to a rolling line chart of at most 50 points.

This project models three parts of that script and proves properties of
them:

- `rolling.dfy`, module `Rolling`: the capacity-bounded FIFO step that the
  chart applies to each of its arrays. It is one push at the tail, then at
  most one shift off the head. The module relates this step to "the last
  50 of everything appended".
- `pose.dfy`, module `Pose`: landmarks, the three joint values
  (`|y13 - y15| * 100`, `|y25 - y27| * 100`, `|y11 - y23| * 100` over
  `real`), and the skeleton segment builder. The builder is a loop over
  the 16-entry connectivity table. It pushes two endpoints and a `null`
  separator per connection.
- `line_chart.dfy`, module `LineChart`: class `ChartData`, the four
  parallel arrays `timestamps`, `joint1`, `joint2` and `joint3`. Its
  invariant says that the arrays have equal length, at most 50, and that
  the timestamps are exactly what `appends` appends to an empty chart
  produce. The closed form of those timestamps is proved: 0..k-1 while
  filling, then a sliding window that ends in 50s.
- `dashboard.dfy`, module `Dashboard`: class `Session`, holding
  `cameraActive`, `recording`, `updateInterval`, the three button enable
  flags and the chart. It has one method per handler. Each request's reply
  is an input value: `Success`, `NotSuccess` (a reply with another
  status) or `Failed` (a rejected fetch). The class invariant is that
  polling runs exactly while the camera is active. `SessionScenario` is a
  client that walks through one session.

The model follows the code as written, including these behaviours:

- Timestamps are the array length before the push. Once the chart is
  full, every new timestamp is 50; they do not keep increasing.
- A `/start_camera` reply with a non-success status leaves the camera
  button disabled. Only a transport failure re-enables it.
- `/stop_camera` acts on any parsed reply, whatever its status. A
  transport failure there is not caught and changes nothing.
- A success reply whose landmark array has 27 or fewer entries makes
  `landmarks[k].y` throw. The throw comes after the skeleton is drawn and
  before anything is pushed, so the chart is unchanged. A sample with
  28..32 landmarks updates the chart, but its skeleton holds `undefined`
  for the missing landmarks.

## Model

| member | source | states |
|---|---|---|
| Rolling.Window | static/js/main.js:213-219 | the window of a history is its last min(n, length) elements, in their original order |
| Rolling.Push | static/js/main.js:208-219 | one append keeps the length within the capacity. Below capacity it only appends. At capacity it drops exactly the head element and appends |
| Rolling.PushIsWindow | static/js/main.js:208-219 | on a window within capacity, push-then-shift-once equals the window of the extended history |
| Rolling.ReplayIsWindow | static/js/main.js:208-219 | any run of appends from a window within capacity leaves the last 50 of everything appended, in arrival order. So after 51 appends to an empty chart the first one is gone |
| Pose.JointAngles | static/js/main.js:204-206 | the joint values exist exactly when the sample has landmark 27. They are non-negative, and each is zero exactly when its two landmarks have the same height |
| Pose.JointsFromHeights | static/js/main.js:204-206 | the joint values depend only on the heights of landmarks 11, 13, 15, 23, 25 and 27 |
| Pose.JointsWorkedExample | static/js/main.js:204-206 | heights 0.2 and 0.5 for landmarks 13 and 15 give joint1 = 30; level knee and ankle give joint2 = 0; heights 0.3 and 0.55 for landmarks 11 and 23 give joint3 = 25 |
| Pose.ConnectionsInRange | static/js/main.js:137-141 | the table has 16 connections, every index lies in 11..32, and 32 is used |
| Pose.StripExtend | static/js/main.js:145-149 | one iteration of the builder extends a segment array laid out for k connections to one laid out for k+1 |
| Pose.StripDefinedIff | static/js/main.js:132-149 | a finished segment array holds no `undefined` if and only if the sample has at least 33 landmarks |
| Pose.StripsAlike | static/js/main.js:145-149 | the x, y and z segment arrays have their `null` separators and their `undefined` entries at the same positions |
| Pose.BuildSegments | static/js/main.js:130-149 | each segment array has 48 entries. Position 3k holds the coordinate of connection k's first landmark, 3k+1 its second, and 3k+2 is `null`. All three arrays share the layout, and none holds `undefined` exactly when the sample has 33 landmarks |
| LineChart.ZipPush | static/js/main.js:208-219 | pushing onto the four parallel arrays pushes one row onto the chart's rows, so the arrays stay aligned |
| LineChart.TimelineShape | static/js/main.js:201-219 | after k appends to an empty chart there are min(k, 50) timestamps. Position i holds i while k <= 50, and min(i + k - 50, 50) after that |
| LineChart.TimestampsCountFromZero | static/js/main.js:71-76 | after a reset, the first k <= 50 appends are stamped 0, 1, ..., k-1 |
| LineChart.FullChartStampsFifty | static/js/main.js:201-215 | once the chart holds 50 samples it stays at 50, and every new timestamp is 50 |
| LineChart.TimelineNonDecreasing | static/js/main.js:201-219 | timestamps never decrease along the chart and lie in 0..50 |
| LineChart.ChartData.constructor | static/js/main.js:4-9 | a new chart has four empty arrays and satisfies the invariant |
| LineChart.ChartData.UpdateLineChart | static/js/main.js:200-219 | without landmark 27 nothing changes. Otherwise each array gets one push and a shift if over 50. The new row is stamped with the old length, the rows become the last 50 of the old rows plus the new one, and the invariant holds |
| Dashboard.Session.constructor | static/js/main.js:1-9 | camera off, not recording, no polling timer, empty chart |
| Dashboard.Session.StartUpdating | static/js/main.js:107-109 | the new timer id replaces any stored one |
| Dashboard.Session.StopUpdating | static/js/main.js:111-116 | the stored id, if any, is the one cleared, and afterwards no id is stored. A second call clears nothing |
| Dashboard.Session.ToggleCamera | static/js/main.js:13-58 | starting: success activates the camera, enables the camera and record buttons and starts polling; a transport failure only re-enables the camera button; another status leaves it disabled. Stopping: any reply turns the camera off, stops polling, clears recording and disables both record buttons; a transport failure changes nothing. It returns the timer id that is cleared: the stored one when the camera is stopped, none otherwise. The chart is untouched |
| Dashboard.Session.StartRecording | static/js/main.js:60-79 | only a success reply sets recording, swaps the record and stop buttons and replaces the chart by a fresh empty one. Any other outcome changes nothing, and the camera state is not consulted |
| Dashboard.Session.StopRecording | static/js/main.js:81-92 | only a success reply clears recording and swaps the buttons back. Any other outcome changes nothing, and the chart is kept |
| Dashboard.Session.UpdateVisualizations | static/js/main.js:118-128 | a tick draws only on a success reply with landmarks, and draws the skeleton of those landmarks. The chart gains one sample exactly when the sample has landmark 27. Otherwise the chart is unchanged |

## Left out

- DOM updates are not modelled: button labels, the video element and the status text. The button `disabled` flags are modelled as booleans.
- The `console.error` logging in the two catch handlers: it has no effect on the state.
- `showStatus` and its 3-second auto-hide timer: user-interface only.
- The Plotly calls and their trace and layout objects. The model returns the skeleton segment arrays that would be drawn; the rendering library is outside it.
- `fetch`, promise chaining and `.json()` parsing: each reply is an input value of its handler.
- `setInterval` timing, ticks in flight when polling stops, and overlapping polls. The timer id is an input of `ToggleCamera` because the browser chooses it.
- The `filename` returned by `/stop_recording`: it only appears in the status text.
- The initial enabled state of the buttons comes from the page's HTML, which is not part of this model. The `Session` constructor takes it as parameters.
- `window.onload` only creates empty plots.
- Malformed landmark entries are not modelled: a `null` element, missing fields, non-numeric coordinates, or a `data` field that is not an array. A landmark is three reals.
- IEEE-754 rounding of the joint values. The model computes over `real`.
- Dashboard.Session.UpdateVisualizations: returns only the skeleton segments, not the three marker arrays (`x`, `y`, `z` of every landmark), which only reach Plotly.
