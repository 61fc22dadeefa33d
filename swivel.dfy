/**
  The `Swivel` class of swivel.js. Every method updates the object's fields in
  place, as the JavaScript does; its postcondition ties the new state to the
  matching transition function of `SwivelSpec`, whose properties are stated
  there and along runs in `SwivelTrace`.

  Besides the fields of the JavaScript object, the class keeps the runtime's
  side of the story: the pending timers under their handles, the next fresh
  handle, and (as ghost state) the broker requests in flight and the log of
  everything the object asked for.

  The callbacks and `Stop` keep `Valid()`. The other methods (`AutoSwivel`,
  `SwivelTo`, `StartSnapshots`, `StopSnapshots`, `TakeSnapshot` and the timer
  primitives) are steps inside a callback and promise only their new state:
  like `autoSwivel()` called directly from outside, a lone `AutoSwivel` would
  leave a second sweep timer pending that `stop` cannot clear.
*/
module Swivel {
  import opened Wrappers
  import opened SwivelSpec
  import SwivelTrace

  class Swivel {
    const broker: string
    const port: int
    const camera: string
    const waypoints: seq<Waypoint>
    const frequency: int
    const duration: int
    const minStay: int
    const maxStay: int

    var snapshots: map<string, seq<byte>>
    var count: nat
    var waypoint: Option<Waypoint>
    var swivelTimeout: Option<Handle>
    var snapshotTimeout: Option<Handle>
    var snapshotInterval: Option<Handle>

    var timers: map<Handle, Timer>
    var nextHandle: Handle
    ghost var inflightMoves: multiset<Option<Waypoint>>
    ghost var inflightCaptures: nat
    ghost var log: seq<Effect>

    function Settings(): Config {
      Config(broker, port, camera, waypoints, frequency, duration, minStay, maxStay)
    }

    /** The object as a value. */
    ghost function Model(): State
      reads this
    {
      State(Settings(), count, waypoint, snapshots, swivelTimeout, snapshotTimeout, snapshotInterval,
            timers, nextHandle, inflightMoves, inflightCaptures, log)
    }

    ghost predicate Valid()
      reads this
    {
      SwivelTrace.Inv(Model())
    }

    /** `new Swivel(options)`; `k` is the draw of the first `randomStay`. */
    constructor (options: Options, k: int)
      requires ValidDraw(Configure(options), k)
      ensures Valid()
      ensures Model() == Init(options, k)
    {
      var c := Configure(options);
      broker, port, camera, waypoints := c.broker, c.port, c.camera, c.waypoints;
      frequency, duration, minStay, maxStay := c.frequency, c.duration, c.minStay, c.maxStay;
      snapshots := map[];
      count := 0;
      waypoint, swivelTimeout, snapshotTimeout, snapshotInterval := None, None, None, None;
      timers, nextHandle := map[], 0;
      inflightMoves, inflightCaptures, log := multiset{}, 0, [];
      new;
      AutoSwivel(k);
      SwivelTrace.InitEstablishes(options, k);
    }

    // ------------------------------------------------------------ timer primitives

    /** `setTimeout`/`setInterval`. */
    method SetTimer(timer: Timer) returns (h: Handle)
      modifies this
      ensures h == old(nextHandle)
      ensures Model() == SwivelSpec.SetTimer(old(Model()), timer)
    {
      h := nextHandle;
      timers := timers[h := timer];
      nextHandle := nextHandle + 1;
      log := log + [Armed(h, timer)];
    }

    /** `if (handle) { clearTimeout(handle); }` */
    method ClearTimer(h: Option<Handle>)
      modifies this
      ensures Model() == ClearSlot(old(Model()), h)
    {
      if h.Some? {
        timers := timers - {h.value};
        log := log + [Cleared(h.value)];
      } else {
        assert timers - Handles(h) == timers;
      }
    }

    // ------------------------------------------------------------ methods

    method AutoSwivel(k: int)
      requires ValidDraw(Settings(), k)
      modifies this
      ensures Model() == SwivelSpec.AutoSwivel(old(Model()), k)
    {
      var target := Target(waypoints, count);
      count := count + 1;
      SwivelTo(target, None);
      var h := SetTimer(Timer(SweepTimer, RandomStay(Settings(), k) * 1000));
      swivelTimeout := Some(h);
    }

    method StartSnapshots(target: Option<Waypoint>)
      modifies this
      ensures Model() == SwivelSpec.StartSnapshots(old(Model()), target)
    {
      waypoint := target;
      var h := SetTimer(Timer(CaptureInterval, frequency));
      snapshotInterval := Some(h);
    }

    method StopSnapshots()
      modifies this
      ensures Model() == SwivelSpec.StopSnapshots(old(Model()))
    {
      ClearTimer(snapshotTimeout);
      ClearTimer(snapshotInterval);
    }

    /** `swivelTo(target, duration)`: sends the move; its response arrives later,
        as a call of `OnMoveResponse`. */
    method SwivelTo(target: Option<Waypoint>, duration: Option<int>)
      modifies this
      ensures Model() == SwivelSpec.SwivelTo(old(Model()), target, duration)
    {
      StopSnapshots();
      var d := Or(duration, this.duration);
      log := log + [Sent(MoveTo(target, d))];
      inflightMoves := inflightMoves + multiset{target};
    }

    /** `takeSnapshot`: sends the capture request; its response arrives later,
        as a call of `OnCaptureResponse`. */
    method TakeSnapshot()
      modifies this
      ensures Model() == SwivelSpec.TakeSnapshot(old(Model()))
    {
      log := log + [Sent(Snapshot)];
      inflightCaptures := inflightCaptures + 1;
    }

    /** `getSnapshot(w)`: the stored image, or `undefined`. */
    function GetSnapshot(w: string): (r: Option<seq<byte>>)
      reads this
      ensures r.Some? <==> w in snapshots
      ensures r.Some? ==> r.value == snapshots[w]
    {
      if w in snapshots then Some(snapshots[w]) else None
    }

    /** `getWaypoint()` */
    function GetWaypoint(): (w: Option<Waypoint>)
      reads this
      ensures w == waypoint
    {
      waypoint
    }

    /** `stop()` */
    method Stop()
      requires Valid()
      modifies this
      ensures Valid()
      ensures Model() == SwivelSpec.Stop(old(Model()))
      ensures SwivelTrace.NoSweepTimer(Model())
      ensures snapshots == old(snapshots) && waypoint == old(waypoint)
    {
      ghost var s := Model();
      ClearTimer(swivelTimeout);
      StopSnapshots();
      SwivelTrace.StepPreservesInv(s, SwivelTrace.StopCalled);
      SwivelTrace.StopSilencesSweep(s);
    }

    // ------------------------------------------------------------ callbacks

    /** The sweep timer `h` fires with the draw `k`. */
    method OnSweepFire(h: Handle, k: int)
      requires Valid()
      requires h in timers && timers[h].kind == SweepTimer && ValidDraw(Settings(), k)
      modifies this
      ensures Valid()
      ensures Model() == SwivelSpec.OnSweepFire(old(Model()), h, k)
    {
      ghost var s := Model();
      timers := timers - {h};
      AutoSwivel(k);
      SwivelTrace.StepPreservesInv(s, SwivelTrace.SweepDue(h, k));
    }

    /** The response callback of the move request sent for `target`. */
    method OnMoveResponse(target: Option<Waypoint>, outcome: Outcome)
      requires Valid()
      requires target in inflightMoves
      modifies this
      ensures Valid()
      ensures Model() == SwivelSpec.OnMoveResponse(old(Model()), target, outcome)
    {
      ghost var s := Model();
      inflightMoves := inflightMoves - multiset{target};
      if outcome == Status(200) {
        var h := SetTimer(Timer(SettleTimer(target), SettleDelay(duration)));
        snapshotTimeout := Some(h);
      }
      SwivelTrace.StepPreservesInv(s, SwivelTrace.MoveAnswered(target, outcome));
    }

    /** The settle timer `h` fires and runs `startSnapshots` for its waypoint. */
    method OnSettleFire(h: Handle)
      requires Valid()
      requires h in timers && timers[h].kind.SettleTimer?
      modifies this
      ensures Valid()
      ensures Model() == SwivelSpec.OnSettleFire(old(Model()), h)
    {
      ghost var s := Model();
      var target := timers[h].kind.target;
      timers := timers - {h};
      StartSnapshots(target);
      SwivelTrace.StepPreservesInv(s, SwivelTrace.SettleDue(h));
    }

    /** The capture interval `h` ticks. */
    method OnCaptureTick(h: Handle)
      requires Valid()
      requires h in timers && timers[h].kind == CaptureInterval
      modifies this
      ensures Valid()
      ensures Model() == SwivelSpec.OnCaptureTick(old(Model()), h)
    {
      TakeSnapshot();
    }

    /** The response of a capture request ends, with `body` as the accumulated data. */
    method OnCaptureResponse(outcome: Outcome, body: seq<byte>)
      requires Valid()
      requires inflightCaptures > 0
      modifies this
      ensures Valid()
      ensures Model() == SwivelSpec.OnCaptureResponse(old(Model()), outcome, body)
    {
      inflightCaptures := inflightCaptures - 1;
      if outcome == Status(200) {
        snapshots := snapshots[PropertyKey(waypoint) := body];
      }
    }
  }

  /** A worked example of what a caller can conclude from the contracts alone:
      a move acknowledged after `stop` still arms a settle timer, while the
      images stay readable. */
  method LateAckAfterStop(image: seq<byte>)
  {
    var options := Options("broker", None, "cam", None, None, None, None, None);
    var sw := new Swivel(options, 0);
    assert sw.inflightMoves == multiset{Some("c")};
    sw.Stop();
    assert sw.timers == map[];
    sw.OnMoveResponse(Some("c"), Status(200));
    assert sw.snapshotTimeout == Some(1) && sw.timers[1] == Timer(SettleTimer(Some("c")), 2800);
    sw.OnSettleFire(1);
    assert sw.GetWaypoint() == Some("c") && 2 in sw.timers;
    sw.OnCaptureTick(2);
    sw.OnCaptureResponse(Status(200), image);
    assert sw.GetSnapshot("c") == Some(image);
  }
}
