/**
  The state of a `Swivel` object (swivel.js) as a value, and one pure transition
  function per method and per callback of the class. Each callback of the
  JavaScript object runs to completion before the next one starts, so each
  transition is one atomic step.

  Timers are modelled by the handles the runtime hands out: `timers` holds
  the timers that are still pending (a fired timeout leaves it, an interval
  stays until cleared), and the three handle fields of the object keep
  whatever handle was last stored in them, exactly like the JavaScript fields.
*/
module SwivelSpec {
  import opened Wrappers

  type Waypoint = string
  newtype byte = b: int | 0 <= b < 256
  /** A timer handle as returned by `setTimeout`/`setInterval`. */
  type Handle = nat

  /** The `options` object of the constructor; `None` is a missing option. */
  datatype Options = Options(
    broker: string,
    port: Option<int>,
    camera: string,
    waypoints: Option<seq<Waypoint>>,
    frequency: Option<int>,
    duration: Option<int>,
    minStay: Option<int>,
    maxStay: Option<int>)

  /** The configuration fields the constructor stores and never changes. */
  datatype Config = Config(
    broker: string,
    port: int,
    camera: string,
    waypoints: seq<Waypoint>,
    frequency: int,    // ms between snapshots
    duration: int,     // ms of a move
    minStay: int,      // s
    maxStay: int)      // s

  datatype TimerKind =
    | SweepTimer                                 // next `autoSwivel`
    | SettleTimer(target: Option<Waypoint>)      // `startSnapshots(target)`
    | CaptureInterval                            // recurring `takeSnapshot`

  datatype Timer = Timer(kind: TimerKind, delay: int)

  /** Requests sent to the broker. */
  datatype Request = MoveTo(pos: Option<Waypoint>, duration: int) | Snapshot

  /** What the object asked of the outside world, in order. */
  datatype Effect = Cleared(handle: Handle) | Armed(handle: Handle, timer: Timer) | Sent(request: Request)

  /** How a broker request ended: an HTTP status, or an `error` event. */
  datatype Outcome = Status(code: int) | TransportError

  datatype State = State(
    config: Config,
    count: nat,
    waypoint: Option<Waypoint>,
    snapshots: map<string, seq<byte>>,
    swivelTimeout: Option<Handle>,
    snapshotTimeout: Option<Handle>,
    snapshotInterval: Option<Handle>,
    // the runtime's side: pending timers, the next fresh handle,
    // broker requests not yet answered, and everything the object asked for
    timers: map<Handle, Timer>,
    nextHandle: Handle,
    inflightMoves: multiset<Option<Waypoint>>,
    inflightCaptures: nat,
    log: seq<Effect>)

  // ---------------------------------------------------------------- constructor

  /** JavaScript falsiness of a numeric option (NaN is not modelled). */
  predicate Falsy(o: Option<int>) {
    o == None || o == Some(0)
  }

  /** `o || fallback` for a numeric option. */
  function Or(o: Option<int>, fallback: int): int {
    if Falsy(o) then fallback else o.value
  }

  /** The field initialisers of the constructor: every missing or falsy option
      takes its default (an array is never falsy, so an empty waypoint list is kept). */
  function Configure(o: Options): (c: Config)
    ensures Falsy(o.port) ==> c.port == 443
    ensures Falsy(o.frequency) ==> c.frequency == 2500
    ensures Falsy(o.duration) ==> c.duration == 2000
    ensures Falsy(o.minStay) ==> c.minStay == 10
    ensures Falsy(o.maxStay) ==> c.maxStay == 20
    ensures o.waypoints == None ==> c.waypoints == ["c", "a", "b"]
    ensures !Falsy(o.port) ==> c.port == o.port.value
    ensures !Falsy(o.frequency) ==> c.frequency == o.frequency.value
    ensures !Falsy(o.duration) ==> c.duration == o.duration.value
    ensures !Falsy(o.minStay) ==> c.minStay == o.minStay.value
    ensures !Falsy(o.maxStay) ==> c.maxStay == o.maxStay.value
    ensures o.waypoints.Some? ==> c.waypoints == o.waypoints.value
    ensures c.broker == o.broker && c.camera == o.camera
    ensures c.port != 0 && c.frequency != 0 && c.duration != 0 && c.minStay != 0 && c.maxStay != 0
  {
    Config(o.broker, Or(o.port, 443), o.camera,
           if o.waypoints.Some? then o.waypoints.value else ["c", "a", "b"],
           Or(o.frequency, 2500), Or(o.duration, 2000), Or(o.minStay, 10), Or(o.maxStay, 20))
  }

  /** The object right after its field initialisers, before the first `autoSwivel`. */
  function Fresh(c: Config): State {
    State(c, 0, None, map[], None, None, None, map[], 0, multiset{}, 0, [])
  }

  // ---------------------------------------------------------------- dwell

  /** `k` is a possible value of `Math.floor(Math.random() * (maxStay - minStay))`:
      a draw in [0, span) for a positive span, and in [span, 0] otherwise. */
  predicate ValidDraw(c: Config, k: int) {
    var span := c.maxStay - c.minStay;
    if span > 0 then 0 <= k < span else span <= k <= 0
  }

  /** `randomStay` for the draw `k`, in seconds. */
  function RandomStay(c: Config, k: int): (r: int)
    requires ValidDraw(c, k)
    ensures c.minStay < c.maxStay ==> c.minStay <= r < c.maxStay
    ensures c.minStay == c.maxStay ==> r == c.minStay
    ensures c.maxStay < c.minStay ==> c.maxStay <= r <= c.minStay
    ensures r - c.minStay == k
  {
    c.minStay + k
  }

  /** `this.duration * 1.4`, the settle delay in ms, on integers: exact whenever
      the product is a whole number, rounded down otherwise. */
  function SettleDelay(duration: int): int {
    duration * 7 / 5
  }

  // ---------------------------------------------------------------- timers

  function Handles(h: Option<Handle>): set<Handle> {
    if h.Some? then {h.value} else {}
  }

  function Disarms(h: Option<Handle>): seq<Effect> {
    if h.Some? then [Cleared(h.value)] else []
  }

  /** `if (handle) { clearTimeout(handle); }`: clearing a timer that already
      fired, or one cleared before, changes nothing. */
  function ClearSlot(s: State, h: Option<Handle>): State {
    s.(timers := s.timers - Handles(h), log := s.log + Disarms(h))
  }

  /** `setTimeout`/`setInterval`: the timer becomes pending under a fresh handle. */
  function SetTimer(s: State, timer: Timer): State {
    s.(timers := s.timers[s.nextHandle := timer],
       nextHandle := s.nextHandle + 1,
       log := s.log + [Armed(s.nextHandle, timer)])
  }

  // ---------------------------------------------------------------- methods

  /** `stopSnapshots`: disarms whatever the settle and capture handle fields
      hold, and nothing else. */
  function StopSnapshots(s: State): (t: State)
    ensures t.timers == s.timers - Handles(s.snapshotTimeout) - Handles(s.snapshotInterval)
    ensures t.log == s.log + Disarms(s.snapshotTimeout) + Disarms(s.snapshotInterval)
    ensures t == s.(timers := t.timers, log := t.log)
  {
    ClearSlot(ClearSlot(s, s.snapshotTimeout), s.snapshotInterval)
  }

  /** `swivelTo(target, duration)`: both follower timers are disarmed before
      the move request is sent; the request carries `duration || this.duration`. */
  function SwivelTo(s: State, target: Option<Waypoint>, duration: Option<int>): (t: State)
    ensures t.timers == s.timers - Handles(s.snapshotTimeout) - Handles(s.snapshotInterval)
    ensures s.snapshotTimeout.Some? ==> s.snapshotTimeout.value !in t.timers
    ensures s.snapshotInterval.Some? ==> s.snapshotInterval.value !in t.timers
    ensures t.log == s.log + Disarms(s.snapshotTimeout) + Disarms(s.snapshotInterval)
                           + [Sent(MoveTo(target, Or(duration, s.config.duration)))]
    ensures Falsy(duration) ==> t.log[|t.log| - 1] == Sent(MoveTo(target, s.config.duration))
    ensures t.inflightMoves == s.inflightMoves + multiset{target}
    ensures t == s.(timers := t.timers, log := t.log, inflightMoves := t.inflightMoves)
  {
    var m := StopSnapshots(s);
    m.(log := m.log + [Sent(MoveTo(target, Or(duration, s.config.duration)))],
       inflightMoves := m.inflightMoves + multiset{target})
  }

  /** `this.waypoints[this.count % this.waypoints.length]`; for an empty list
      the index is NaN and the element `undefined`. */
  function Target(ws: seq<Waypoint>, n: nat): Option<Waypoint> {
    if |ws| == 0 then None else Some(ws[n % |ws|])
  }

  /** `autoSwivel` with the random draw `k`: the move goes to the waypoint the
      counter selects, the counter grows by one, and the sweep timer is re-armed
      whatever becomes of the move. */
  function AutoSwivel(s: State, k: int): (t: State)
    requires ValidDraw(s.config, k)
    ensures t.count == s.count + 1
    ensures var sweep := Timer(SweepTimer, RandomStay(s.config, k) * 1000);
      && t.swivelTimeout == Some(s.nextHandle)
      && t.nextHandle == s.nextHandle + 1
      && t.timers == (s.timers - Handles(s.snapshotTimeout) - Handles(s.snapshotInterval))[s.nextHandle := sweep]
      && t.log == s.log + Disarms(s.snapshotTimeout) + Disarms(s.snapshotInterval)
                        + [Sent(MoveTo(Target(s.config.waypoints, s.count), s.config.duration)),
                           Armed(s.nextHandle, sweep)]
    ensures |s.config.waypoints| > 0 ==>
      t.inflightMoves == s.inflightMoves + multiset{Some(s.config.waypoints[s.count % |s.config.waypoints|])}
    ensures |s.config.waypoints| == 0 ==> t.inflightMoves == s.inflightMoves + multiset{None}
    ensures t == s.(count := t.count, swivelTimeout := t.swivelTimeout, timers := t.timers,
                    nextHandle := t.nextHandle, log := t.log, inflightMoves := t.inflightMoves)
  {
    var m := SwivelTo(s.(count := s.count + 1), Target(s.config.waypoints, s.count), None);
    SetTimer(m, Timer(SweepTimer, RandomStay(s.config, k) * 1000)).(swivelTimeout := Some(s.nextHandle))
  }

  /** The object as the constructor leaves it: configured, then one `autoSwivel`. */
  function Init(o: Options, k: int): (t: State)
    requires ValidDraw(Configure(o), k)
    ensures t.config == Configure(o)
    ensures t.count == 1 && t.waypoint == None && t.snapshots == map[]
    ensures t.timers == map[0 := Timer(SweepTimer, RandomStay(Configure(o), k) * 1000)]
    ensures t.swivelTimeout == Some(0) && t.snapshotTimeout == None && t.snapshotInterval == None
    ensures t.log == [Sent(MoveTo(Target(Configure(o).waypoints, 0), Configure(o).duration)),
                      Armed(0, Timer(SweepTimer, RandomStay(Configure(o), k) * 1000))]
    ensures t.nextHandle == 1
    ensures t.inflightMoves == multiset{Target(Configure(o).waypoints, 0)} && t.inflightCaptures == 0
  {
    AutoSwivel(Fresh(Configure(o)), k)
  }

  /** `startSnapshots(target)`: the current waypoint becomes `target` and a
      capture interval is armed at `frequency`; an interval already stored in the
      field is overwritten, not cleared. */
  function StartSnapshots(s: State, target: Option<Waypoint>): (t: State)
    ensures t.waypoint == target
    ensures t.snapshotInterval == Some(s.nextHandle) && t.nextHandle == s.nextHandle + 1
    ensures t.timers == s.timers[s.nextHandle := Timer(CaptureInterval, s.config.frequency)]
    ensures t.log == s.log + [Armed(s.nextHandle, Timer(CaptureInterval, s.config.frequency))]
    ensures t == s.(waypoint := target, snapshotInterval := t.snapshotInterval, timers := t.timers,
                    nextHandle := t.nextHandle, log := t.log)
  {
    SetTimer(s, Timer(CaptureInterval, s.config.frequency)).(waypoint := target, snapshotInterval := Some(s.nextHandle))
  }

  /** `takeSnapshot`: one capture request; the broker answers for whatever it points at. */
  function TakeSnapshot(s: State): (t: State)
    ensures t.log == s.log + [Sent(Snapshot)]
    ensures t.inflightCaptures == s.inflightCaptures + 1
    ensures t == s.(log := t.log, inflightCaptures := t.inflightCaptures)
  {
    s.(log := s.log + [Sent(Snapshot)], inflightCaptures := s.inflightCaptures + 1)
  }

  /** The key under which `this.snapshots[this.waypoint]` stores: a property key
      is a string, and `undefined` becomes "undefined". */
  function PropertyKey(w: Option<Waypoint>): string {
    if w.None? then "undefined" else w.value
  }

  // ---------------------------------------------------------------- callbacks

  /** The sweep timer fires: it is no longer pending, and `autoSwivel` runs. */
  function OnSweepFire(s: State, h: Handle, k: int): (t: State)
    requires h in s.timers && s.timers[h].kind == SweepTimer
    requires ValidDraw(s.config, k)
    ensures t.count == s.count + 1
    ensures var sweep := Timer(SweepTimer, RandomStay(s.config, k) * 1000);
      && t.swivelTimeout == Some(s.nextHandle)
      && t.nextHandle == s.nextHandle + 1
      && t.timers == (s.timers - {h} - Handles(s.snapshotTimeout) - Handles(s.snapshotInterval))[s.nextHandle := sweep]
      && t.log == s.log + Disarms(s.snapshotTimeout) + Disarms(s.snapshotInterval)
                        + [Sent(MoveTo(Target(s.config.waypoints, s.count), s.config.duration)),
                           Armed(s.nextHandle, sweep)]
    ensures t.inflightMoves == s.inflightMoves + multiset{Target(s.config.waypoints, s.count)}
    ensures t == s.(count := t.count, swivelTimeout := t.swivelTimeout, timers := t.timers,
                    nextHandle := t.nextHandle, log := t.log, inflightMoves := t.inflightMoves)
  {
    AutoSwivel(s.(timers := s.timers - {h}), k)
  }

  /** The response to a move request for `target` (lines 85-97): only status 200
      arms a settle timer, for the configured duration times 1.4 even when the
      move carried another duration, and it overwrites the settle handle without
      clearing the timer stored there. Nothing checks whether a newer move or
      `stop` came in between. */
  function OnMoveResponse(s: State, target: Option<Waypoint>, outcome: Outcome): (t: State)
    requires target in s.inflightMoves
    ensures t.inflightMoves == s.inflightMoves - multiset{target}
    ensures outcome == Status(200) ==>
      var settle := Timer(SettleTimer(target), SettleDelay(s.config.duration));
      && t.timers == s.timers[s.nextHandle := settle]
      && t.snapshotTimeout == Some(s.nextHandle)
      && t.nextHandle == s.nextHandle + 1
      && t.log == s.log + [Armed(s.nextHandle, settle)]
      && t == s.(timers := t.timers, snapshotTimeout := t.snapshotTimeout, nextHandle := t.nextHandle,
                 log := t.log, inflightMoves := t.inflightMoves)
    ensures outcome != Status(200) ==> t == s.(inflightMoves := t.inflightMoves)
  {
    var answered := s.(inflightMoves := s.inflightMoves - multiset{target});
    if outcome == Status(200) then
      SetTimer(answered, Timer(SettleTimer(target), SettleDelay(s.config.duration)))
        .(snapshotTimeout := Some(s.nextHandle))
    else
      answered
  }

  /** A settle timer fires: it is no longer pending, and `startSnapshots` runs
      for the waypoint bound when it was armed. */
  function OnSettleFire(s: State, h: Handle): (t: State)
    requires h in s.timers && s.timers[h].kind.SettleTimer?
    ensures t.waypoint == s.timers[h].kind.target
    ensures t.snapshotInterval == Some(s.nextHandle)
    ensures t.timers == (s.timers - {h})[s.nextHandle := Timer(CaptureInterval, s.config.frequency)]
    ensures t.nextHandle == s.nextHandle + 1
    ensures t.log == s.log + [Armed(s.nextHandle, Timer(CaptureInterval, s.config.frequency))]
    ensures t == s.(waypoint := t.waypoint, snapshotInterval := t.snapshotInterval, timers := t.timers,
                    nextHandle := t.nextHandle, log := t.log)
  {
    StartSnapshots(s.(timers := s.timers - {h}), s.timers[h].kind.target)
  }

  /** A capture interval ticks: it stays pending, and `takeSnapshot` runs. */
  function OnCaptureTick(s: State, h: Handle): (t: State)
    requires h in s.timers && s.timers[h].kind == CaptureInterval
    ensures h in t.timers && t.timers == s.timers
    ensures t.log == s.log + [Sent(Snapshot)]
    ensures t == s.(log := t.log, inflightCaptures := s.inflightCaptures + 1)
  {
    TakeSnapshot(s)
  }

  /** The response to a capture request (lines 115-127): with status 200 the body
      replaces the entry of the waypoint current when the response ends, and no
      other entry; any other status and a transport error leave the store alone. */
  function OnCaptureResponse(s: State, outcome: Outcome, body: seq<byte>): (t: State)
    requires s.inflightCaptures > 0
    ensures outcome == Status(200) ==> t.snapshots == s.snapshots[PropertyKey(s.waypoint) := body]
    ensures outcome == Status(200) ==>
      forall key | key in s.snapshots && key != PropertyKey(s.waypoint) :: key in t.snapshots && t.snapshots[key] == s.snapshots[key]
    ensures outcome != Status(200) ==> t.snapshots == s.snapshots
    ensures t == s.(snapshots := t.snapshots, inflightCaptures := s.inflightCaptures - 1)
  {
    var answered := s.(inflightCaptures := s.inflightCaptures - 1);
    if outcome == Status(200) then
      answered.(snapshots := s.snapshots[PropertyKey(s.waypoint) := body])
    else
      answered
  }

  /** `stop`: disarms the sweep timer and then both follower timers; the store,
      the current waypoint and the counter stay as they are. */
  function Stop(s: State): (t: State)
    ensures t.timers == s.timers - Handles(s.swivelTimeout) - Handles(s.snapshotTimeout) - Handles(s.snapshotInterval)
    ensures t.log == s.log + Disarms(s.swivelTimeout) + Disarms(s.snapshotTimeout) + Disarms(s.snapshotInterval)
    ensures t.snapshots == s.snapshots && t.waypoint == s.waypoint && t.count == s.count
    ensures t == s.(timers := t.timers, log := t.log)
  {
    StopSnapshots(ClearSlot(s, s.swivelTimeout))
  }
}
