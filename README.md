# Swivel camera controller, modelled in Dafny

The system pans a motorised camera through a cycle of waypoints. The `Swivel`
object (swivel.js) moves the camera to the next waypoint, waits for it to
settle, and then captures snapshots at a fixed frequency until the next move.
The next move comes after a random dwell. The object keeps the latest image per
waypoint. A small Express server (camera-app.js) serves those images and the
current waypoint.

This project models the `Swivel` object as an event-driven state machine.
It also models the two pieces of logic in the server's request handlers.

- `SwivelSpec` (swivel_spec.dfy): the object's state as a value, and one pure
  transition function per method and per callback: `autoSwivel`, `swivelTo`,
  `startSnapshots`, `stopSnapshots`, `takeSnapshot`, `stop`, and the timer and
  HTTP callbacks. Each callback runs to completion before the next one begins,
  so each callback is one atomic step.
- `SwivelTrace` (swivel_trace.dfy): the callbacks the event loop may deliver,
  runs of them, and what holds along every run.
- `Swivel` (swivel.dfy): the class itself, with the JavaScript fields, updated
  in place. Every method's postcondition equates the new state with the
  matching `SwivelSpec` function of the old state.
- `CameraApp` (camera_app.dfy): the `.jpg` stripping and empty-body fallback
  of `/snapshot/:waypoint`, and the pass-through of `/waypoint`.

Timers are handles. `timers` maps each pending timer's handle to its kind and
delay. A timeout leaves the map when it fires; an interval stays until it is
cleared. Clearing a handle that already fired changes nothing. The fields
`swivelTimeout`, `snapshotTimeout` and `snapshotInterval` keep whatever handle
was last stored in them, as the JavaScript fields do. Broker requests that
are not yet answered are ghost state. A response can only arrive for a request
that was sent. A ghost log records, in order, every timer armed, every timer
cleared and every request sent, so "disarm before the move" can be checked.

JavaScript `undefined` is `None`. An empty `waypoints` array is truthy, so the
constructor keeps it; `count % 0` is then NaN, and the move target is
`undefined`. `snapshots[undefined]` stores under the key "undefined"
(`PropertyKey`).

Some behaviours one would expect of such a controller do not hold in the code.
The model follows the code:

- One would expect at most one settle timer or capture interval to be armed.
  The code does not guarantee it. A move response does not check whether a
  newer move or `stop` came first (swivel.js:85-93). Line 92 overwrites
  `snapshotTimeout` without clearing the timer it held, and line 48 does the
  same to `snapshotInterval`. `SwivelTrace.FollowerStep` shows that one step
  keeps the invariant exactly when it is not a 200 move response arriving
  while a follower is pending. `SwivelTrace.TwoSettleTimersScenario` builds two
  pending settle timers from the default configuration; `stop` then clears only
  one of them.
- One would expect a callback after `stop` to arm nothing. In the code, a move
  acknowledged after `stop` arms a settle timer, and that timer starts a
  capture interval that no callback clears; only a further call of `stop()`
  does (`SwivelTrace.LateMoveOkArmsAfterStop`,
  `SwivelTrace.LateIntervalNeedsSecondStop`, `SwivelTrace.LateIntervalKeepsTicking`,
  and the worked example
  `Swivel.LateAckAfterStop`, a client method that exercises the class's
  contracts and models no source lines of its own).
- `waypoint` is not set when a move succeeds. It is set only when the settle
  timer fires (swivel.js:47).
- The code checks neither that the waypoint list is non-empty nor that
  `minStay <= maxStay`. The model covers the empty list and a negative span
  for the random dwell.
- A capture is stored under the waypoint current when its response ends
  (swivel.js:126), not the one current when the request was sent.

## Model

| member | source | states |
|---|---|---|
| SwivelSpec.Configure | swivel.js:10-18 | each missing or falsy option, 0 included, takes its default: port 443, waypoints ["c","a","b"], frequency 2500, duration 2000, minStay 10, maxStay 20; a given array is kept even when empty; no numeric setting ends up 0 |
| SwivelSpec.RandomStay | swivel.js:40-42 | for a draw k of floor(random*(maxStay-minStay)) the dwell is minStay+k: in [minStay, maxStay) for a positive span, exactly minStay for an empty span, in [maxStay, minStay] for a negative span |
| SwivelSpec.StopSnapshots | swivel.js:53-61 | disarms the handles stored in the settle and capture fields and nothing else; all other state unchanged |
| SwivelSpec.SwivelTo | swivel.js:64-72 | the follower timers are disarmed and logged before the move request is sent; the request carries pos = target and duration = `duration || this.duration`; the move is in flight afterwards |
| SwivelSpec.AutoSwivel | swivel.js:27-37 | the move goes to `waypoints[count % length]` (undefined for an empty list), the counter grows by exactly one, and a sweep timer of randomStay*1000 ms is armed after the move is sent, whatever the move does |
| SwivelSpec.Init | swivel.js:10-24 | after construction: count 1, no waypoint, empty store, only the sweep timer pending, next handle 1, the first move in flight and no capture, and the log is the move to position 0 followed by arming that timer |
| SwivelSpec.StartSnapshots | swivel.js:45-50 | waypoint becomes the target; a capture interval at `frequency` is armed and stored in the capture field, which is overwritten without clearing |
| SwivelSpec.TakeSnapshot | swivel.js:104-134 | one capture request is sent and is in flight; nothing else changes |
| SwivelSpec.OnSweepFire | swivel.js:36 | the fired sweep timer runs autoSwivel: the counter grows by one, a new sweep timer is pending, the move to the selected waypoint is sent, and waypoint and store are unchanged |
| SwivelSpec.OnMoveResponse | swivel.js:85-97 | only status 200 arms a settle timer, bound to the moved-to waypoint, with delay duration*1.4 of the configured duration; it overwrites the settle field and earlier timers stay pending; any other status or a transport error changes nothing but the in-flight record |
| SwivelSpec.OnSettleFire | swivel.js:45-48 | the fired settle timer sets waypoint to its own target and arms the capture interval at `frequency` |
| SwivelSpec.OnCaptureTick | swivel.js:48 | an interval tick keeps the interval pending and sends exactly one capture request |
| SwivelSpec.OnCaptureResponse | swivel.js:115-127 | status 200 replaces only the entry of the waypoint current at the end of the response; any other status or a transport error leaves the whole store unchanged |
| SwivelSpec.Stop | swivel.js:147-153 | disarms the sweep, settle and capture handles; store, waypoint and counter unchanged |
| SwivelTrace.InitEstablishes | swivel.js:10-24 | the constructed object satisfies the handle invariant, has its sweep pending, has no follower timer, and names only configured waypoints |
| SwivelTrace.StepPreservesInv | swivel.js:36 | every callback keeps handles fresh and keeps every pending sweep timer the one `swivelTimeout` holds |
| SwivelTrace.RunPreservesInv | swivel.js:27-37 | the handle invariant holds along every run |
| SwivelTrace.StepKeepsSweep | swivel.js:32-36 | every callback other than stop leaves a sweep timer pending, whatever the move responses are |
| SwivelTrace.SweepKeepsBeating | swivel.js:32-36 | along any run without stop the sweep timer stays pending: the heartbeat does not depend on the moves succeeding |
| SwivelTrace.StopSilencesSweep | swivel.js:147-150 | after stop no sweep timer is pending |
| SwivelTrace.NoSweepAfterStop | swivel.js:147-153 | once no sweep timer is pending, no run ever arms one again |
| SwivelTrace.StepMoves | swivel.js:28-33 | one callback adds one move to the log and one to the counter if it is a sweep, and nothing otherwise |
| SwivelTrace.RunMoves | swivel.js:28-33 | over any run the counter grows by the number of sweeps and the moves sent are consecutive positions of the waypoint cycle |
| SwivelTrace.CycleAt | swivel.js:29 | the i-th move of a cycle starting at counter value `from` targets position from+i |
| SwivelTrace.InitMoves | swivel.js:23 | the constructor sends exactly one move, to position 0 |
| SwivelTrace.NthMoveFrom | swivel.js:28-33 | from a state whose one move went to position 0, the i-th move goes to position i |
| SwivelTrace.NthMoveTarget | swivel.js:28-33 | from construction, the i-th call of autoSwivel moves to `waypoints[i % length]` with the configured duration, and count is one more than the number of sweeps |
| SwivelTrace.FollowerStep | swivel.js:85-93 | a callback keeps "at most one settle/capture timer, the one its field holds" if and only if it is not a 200 move response arriving while a follower is pending |
| SwivelTrace.OrderlyRunSingleFollower | swivel.js:45-93 | along a run in which no 200 move response meets a pending follower, at most one follower is ever pending |
| SwivelTrace.StopClearsAll | swivel.js:147-153 | with at most one follower pending, stop leaves no timer at all |
| SwivelTrace.StopIdempotent | swivel.js:147-153 | stopping twice gives the same object and pending timers as stopping once; only the repeated clear calls are added to the log |
| SwivelTrace.QuietUntilMoveOk | swivel.js:85-93 | with no timer pending, only a 200 move response can arm a timer again |
| SwivelTrace.LateMoveOkArmsAfterStop | swivel.js:85-93 | a 200 response to a move still in flight at stop arms a settle timer after stop |
| SwivelTrace.LateIntervalNeedsSecondStop | swivel.js:146-152 | with the default configuration, a 200 answer after stop arms a settle timer, and its firing leaves exactly one capture interval pending, with the handle invariant held and no sweep timer; a second stop clears it |
| SwivelTrace.StepKeepsInterval | swivel.js:45-58 | once no sweep timer is pending, every callback keeps a pending capture interval unchanged and arms no sweep timer: only `stopSnapshots`, reached from `stop`, clears it |
| SwivelTrace.IntervalSurvives | swivel.js:45-58 | along every run without stop from a state with no sweep timer, a pending capture interval stays pending and unchanged |
| SwivelTrace.LateIntervalKeepsTicking | swivel.js:45-58 | the interval started after stop in the default configuration stays pending along every stop-free run, so no callback clears it |
| SwivelTrace.TwoSettleTimersScenario | swivel.js:92 | with the default configuration, a sweep before the first move's answer and two 200 answers leave two settle timers pending, and stop clears only the later one |
| SwivelTrace.WaypointOnlyFromSettle | swivel.js:45-47 | only a settle timer changes the current waypoint, so getWaypoint is undefined from construction until the first settle |
| SwivelTrace.StoreOnlyFromCaptures | swivel.js:115-127 | only a 200 capture response changes the store; after stop the last images stay readable |
| SwivelTrace.StepPreservesBounded | swivel.js:29 | every callback keeps in-flight moves, settle targets, the current waypoint and the store keys within the configured waypoints |
| SwivelTrace.RunBounded | swivel.js:126 | along any run the store holds only configured waypoints, or "undefined" when the list is empty |
| Swivel.Swivel.constructor | swivel.js:10-24 | the new object is the configured state after one autoSwivel, and satisfies the handle invariant |
| Swivel.Swivel.AutoSwivel | swivel.js:27-37 | in-place autoSwivel; new state equals SwivelSpec.AutoSwivel of the old |
| Swivel.Swivel.StartSnapshots | swivel.js:45-50 | in-place startSnapshots, equal to SwivelSpec.StartSnapshots |
| Swivel.Swivel.StopSnapshots | swivel.js:53-61 | in-place stopSnapshots, equal to SwivelSpec.StopSnapshots |
| Swivel.Swivel.SwivelTo | swivel.js:64-101 | in-place swivelTo, equal to SwivelSpec.SwivelTo |
| Swivel.Swivel.TakeSnapshot | swivel.js:104-134 | in-place takeSnapshot, equal to SwivelSpec.TakeSnapshot |
| Swivel.Swivel.GetSnapshot | swivel.js:137-139 | returns an image exactly when the store has an entry for the name, and then that entry |
| Swivel.Swivel.GetWaypoint | swivel.js:142-144 | returns the waypoint field unchanged |
| Swivel.Swivel.Stop | swivel.js:147-153 | in-place stop, equal to SwivelSpec.Stop; keeps the handle invariant, leaves no sweep timer, and keeps store and waypoint |
| Swivel.Swivel.OnSweepFire | swivel.js:36 | in-place sweep firing, equal to SwivelSpec.OnSweepFire; keeps the handle invariant |
| Swivel.Swivel.OnMoveResponse | swivel.js:85-97 | in-place move response, equal to SwivelSpec.OnMoveResponse; keeps the handle invariant |
| Swivel.Swivel.OnSettleFire | swivel.js:45-48 | in-place settle firing, equal to SwivelSpec.OnSettleFire; keeps the handle invariant |
| Swivel.Swivel.OnCaptureTick | swivel.js:48 | in-place interval tick, equal to SwivelSpec.OnCaptureTick |
| Swivel.Swivel.OnCaptureResponse | swivel.js:115-127 | in-place capture response, equal to SwivelSpec.OnCaptureResponse |
| CameraApp.StripJpg | camera-app.js:14 | a name ending in ".jpg" loses exactly that one suffix; any other name is unchanged; the result is always a prefix of the parameter |
| CameraApp.StripJpgRoundTrip | camera-app.js:14 | stripping name+".jpg" gives back name |
| CameraApp.StripJpgExamples | camera-app.js:14 | "a.jpg.jpg" becomes "a.jpg"; "a.JPG" stays as it is |
| CameraApp.SnapshotReply | camera-app.js:15-19 | status 200 and image/png always; a stored image is sent unchanged; a missing (or null) image is sent as '' |
| CameraApp.SnapshotRoute | camera-app.js:13-20 | the reply to /snapshot/:waypoint looks up the stripped name and sends that entry, or '' when there is none |
| CameraApp.WaypointRoute | camera-app.js:21-23 | status 200, text/plain, body exactly getWaypoint(), undefined included |

## Left out

- Real time: timers have no clock. A pending timer may fire at any point in a run. Node's clamping of delays below 1 ms is not modelled; the requested delay is recorded as given.
- `Math.random` (swivel.js:41): replaced by an integer draw `k`, a parameter of every step that calls `randomStay`. No floating point is modelled.
- SwivelSpec.OnMoveResponse: the settle delay is `duration * 7 / 5` on integers, rounded down, not the float product `duration * 1.4`. The two agree whenever the floating-point product is a whole number, as it is for the default 2000 ms (2800 ms); for 45 ms the double product is 62.99999999999999 where the model gives 63.
- HTTP: requests, connection handling, response streaming and the `stream.Transform` buffering (swivel.js:85-133). A capture's body arrives as an opaque byte sequence. Every request gets exactly one answer: a status or a transport error. A response whose stream breaks before `end` stores nothing, like a transport error.
- An empty 200 capture body: the stream's `read()` returns `null`, which the object stores. The model stores the empty sequence instead. The `/snapshot` handler sends '' in both cases.
- `JSON.stringify`, the request path, headers and `Content-Length` (swivel.js:68-82, 105-113): library serialisation. `broker`, `port` and `camera` are stored but not used.
- `console` logging throughout.
- Option values that are neither missing nor numbers. `null`, `false`, `''` and `NaN` behave like a missing option, which is what `None` stands for. Only integer values of numeric options and string arrays for `waypoints` are modelled; fractional values such as `minStay: 2.5`, for which `randomStay` (swivel.js:41) returns non-integers, are not.
- Inherited properties of the plain object used as the store (`constructor`, `toString`, and `__proto__`, whose assignment changes the prototype). The store is a map with no inherited keys.
- Precision of `count` beyond 2^53 increments.
- The Express app, static file serving, `minimist`, `server.listen` and the signal handlers (camera-app.js:3-12, 25-33): I/O plumbing. Decoding of route parameters and the way `res.send` serialises a string, a buffer or `undefined` are Express's.
- The internal steps of the class (`Swivel.Swivel.AutoSwivel`, `SwivelTo`, `StartSnapshots`, `StopSnapshots`, `TakeSnapshot`, `SetTimer`, `ClearTimer`) do not promise the handle invariant on their own: called directly, as `autoSwivel()` could be from outside, a lone `AutoSwivel` stacks a second sweep timer that `stop` cannot clear. The invariant is promised per callback and for `stop`.
- Requests that Node refuses synchronously: `http.request` (swivel.js:85) throws on request options it rejects, such as a `camera` containing a space in the path (swivel.js:77) or an out-of-range port. Thrown from the constructor's first `autoSwivel`, that exception means no object exists. The model assumes `broker`, `port` and `camera` always make a valid request, so its constructor always yields `SwivelSpec.Init`.
- The event loop itself, which is concurrency. Callbacks are atomic and never interleaved.
