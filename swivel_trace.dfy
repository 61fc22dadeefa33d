/**
  Runs of a `Swivel` object: the callbacks the event loop may deliver, one at a
  time, and what stays true along any run of them.
*/
module SwivelTrace {
  import opened Wrappers
  import opened SwivelSpec

  /** One callback of the event loop, or a call of `stop`. */
  datatype Event =
    | SweepDue(h: Handle, draw: int)
    | MoveAnswered(target: Option<Waypoint>, outcome: Outcome)
    | SettleDue(h: Handle)
    | CaptureDue(h: Handle)
    | CaptureAnswered(outcome: Outcome, body: seq<byte>)
    | StopCalled

  /** Timers fire only while pending; responses come only for requests still in flight. */
  predicate Enabled(s: State, e: Event) {
    match e
    case SweepDue(h, k) => h in s.timers && s.timers[h].kind == SweepTimer && ValidDraw(s.config, k)
    case MoveAnswered(target, _) => target in s.inflightMoves
    case SettleDue(h) => h in s.timers && s.timers[h].kind.SettleTimer?
    case CaptureDue(h) => h in s.timers && s.timers[h].kind == CaptureInterval
    case CaptureAnswered(_, _) => s.inflightCaptures > 0
    case StopCalled => true
  }

  function Step(s: State, e: Event): State
    requires Enabled(s, e)
  {
    match e
    case SweepDue(h, k) => OnSweepFire(s, h, k)
    case MoveAnswered(target, outcome) => OnMoveResponse(s, target, outcome)
    case SettleDue(h) => OnSettleFire(s, h)
    case CaptureDue(h) => OnCaptureTick(s, h)
    case CaptureAnswered(outcome, body) => OnCaptureResponse(s, outcome, body)
    case StopCalled => Stop(s)
  }

  /** Every event of `es` is enabled when its turn comes. */
  predicate Admissible(s: State, es: seq<Event>)
    decreases |es|
  {
    |es| == 0 || (Enabled(s, es[0]) && Admissible(Step(s, es[0]), es[1..]))
  }

  function Run(s: State, es: seq<Event>): State
    requires Admissible(s, es)
    decreases |es|
  {
    if |es| == 0 then s else Run(Step(s, es[0]), es[1..])
  }

  // ---------------------------------------------------------------- invariants

  predicate Below(h: Option<Handle>, n: Handle) {
    h.Some? ==> h.value < n
  }

  /** Handles are handed out once: every pending or stored handle is older than `nextHandle`,
      and the one pending sweep timer, if any, is the one `swivelTimeout` holds. */
  predicate Inv(s: State) {
    && (forall h | h in s.timers :: h < s.nextHandle)
    && Below(s.swivelTimeout, s.nextHandle)
    && Below(s.snapshotTimeout, s.nextHandle)
    && Below(s.snapshotInterval, s.nextHandle)
    && (forall h | h in s.timers && s.timers[h].kind == SweepTimer :: s.swivelTimeout == Some(h))
  }

  predicate SweepPending(s: State) {
    s.swivelTimeout.Some? && s.swivelTimeout.value in s.timers
    && s.timers[s.swivelTimeout.value].kind == SweepTimer
  }

  predicate NoSweepTimer(s: State) {
    forall h | h in s.timers :: s.timers[h].kind != SweepTimer
  }

  /** Settle timers and capture intervals follow the sweep timer. */
  predicate IsFollower(t: Timer) {
    t.kind != SweepTimer
  }

  predicate HasFollower(s: State) {
    exists h :: h in s.timers && IsFollower(s.timers[h])
  }

  /** The handle field that a follower of this kind is stored in. */
  function Slot(s: State, kind: TimerKind): Option<Handle> {
    if kind.SettleTimer? then s.snapshotTimeout else s.snapshotInterval
  }

  /** The single-follower invariant: at most one settle timer or capture
      interval is pending, and it is the one its handle field holds. */
  predicate SingleFollower(s: State) {
    forall h | h in s.timers && IsFollower(s.timers[h]) ::
      && Slot(s, s.timers[h].kind) == Some(h)
      && (forall g | g in s.timers && g != h :: !IsFollower(s.timers[g]))
  }

  /** Whether `t` can be the target of a move made by `autoSwivel`. */
  predicate IsTarget(ws: seq<Waypoint>, t: Option<Waypoint>) {
    if t.None? then |ws| == 0 else t.value in ws
  }

  /** Everything that names a waypoint names a configured one; the store holds
      the configured waypoints only, or "undefined" when there are none. */
  predicate Bounded(s: State) {
    var ws := s.config.waypoints;
    && (s.waypoint.Some? ==> s.waypoint.value in ws)
    && (forall t | t in s.inflightMoves :: IsTarget(ws, t))
    && (forall h | h in s.timers && s.timers[h].kind.SettleTimer? :: IsTarget(ws, s.timers[h].kind.target))
    && (forall h | h in s.timers && s.timers[h].kind == CaptureInterval :: |ws| > 0 ==> s.waypoint.Some?)
    && (s.inflightCaptures > 0 && |ws| > 0 ==> s.waypoint.Some?)
    && (forall key | key in s.snapshots :: key in ws || (|ws| == 0 && key == "undefined"))
  }

  // ---------------------------------------------------------------- the start

  lemma InitEstablishes(o: Options, k: int)
    requires ValidDraw(Configure(o), k)
    ensures var s := Init(o, k);
      Inv(s) && SweepPending(s) && SingleFollower(s) && !HasFollower(s) && Bounded(s)
  {
    var s := Init(o, k);
    var ws := s.config.waypoints;
    assert s.inflightMoves == multiset{Target(ws, 0)};
    assert IsTarget(ws, Target(ws, 0));
  }

  // ---------------------------------------------------------------- handles

  lemma StepPreservesInv(s: State, e: Event)
    requires Inv(s) && Enabled(s, e)
    ensures Inv(Step(s, e))
  {
    var t := Step(s, e);
    match e
    case SweepDue(h, k) =>
      forall g | g in t.timers && t.timers[g].kind == SweepTimer
        ensures t.swivelTimeout == Some(g)
      {
        if g != s.nextHandle {
          assert g in s.timers && s.timers[g] == t.timers[g];
        }
      }
    case MoveAnswered(_, _) =>
    case SettleDue(h) =>
    case CaptureDue(h) =>
    case CaptureAnswered(_, _) =>
    case StopCalled =>
  }

  lemma {:induction false} RunPreservesInv(s: State, es: seq<Event>)
    requires Inv(s) && Admissible(s, es)
    ensures Inv(Run(s, es))
    decreases |es|
  {
    if |es| > 0 {
      StepPreservesInv(s, es[0]);
      RunPreservesInv(Step(s, es[0]), es[1..]);
    }
  }

  // ---------------------------------------------------------------- the sweep timer

  /** Whatever a move's response is, a sweep timer stays pending until `stop`. */
  lemma StepKeepsSweep(s: State, e: Event)
    requires Inv(s) && SweepPending(s) && Enabled(s, e) && e != StopCalled
    ensures SweepPending(Step(s, e))
  {
  }

  lemma {:induction false} SweepKeepsBeating(s: State, es: seq<Event>)
    requires Inv(s) && SweepPending(s) && Admissible(s, es)
    requires forall i | 0 <= i < |es| :: es[i] != StopCalled
    ensures SweepPending(Run(s, es))
    decreases |es|
  {
    if |es| > 0 {
      StepKeepsSweep(s, es[0]);
      StepPreservesInv(s, es[0]);
      SweepKeepsBeating(Step(s, es[0]), es[1..]);
    }
  }

  /** After `stop` no sweep timer is pending. */
  lemma StopSilencesSweep(s: State)
    requires Inv(s)
    ensures NoSweepTimer(Stop(s))
  {
  }

  /** Once no sweep timer is pending, none is ever armed again: only a firing
      sweep timer calls `autoSwivel`. */
  lemma {:induction false} NoSweepAfterStop(s: State, es: seq<Event>)
    requires NoSweepTimer(s) && Admissible(s, es)
    ensures NoSweepTimer(Run(s, es))
    decreases |es|
  {
    if |es| > 0 {
      var t := Step(s, es[0]);
      assert NoSweepTimer(t) by {
        forall g | g in t.timers ensures t.timers[g].kind != SweepTimer {
          if es[0].SettleDue? || es[0].MoveAnswered? {
            if g != s.nextHandle { assert g in s.timers && t.timers[g] == s.timers[g]; }
          } else {
            assert g in s.timers && t.timers[g] == s.timers[g];
          }
        }
      }
      NoSweepAfterStop(t, es[1..]);
    }
  }

  // ---------------------------------------------------------------- the counter and the moves

  function SweepCount(es: seq<Event>): nat {
    if |es| == 0 then 0 else (if es[0].SweepDue? then 1 else 0) + SweepCount(es[1..])
  }

  /** The move requests in a log, in the order they were sent. */
  function Moves(log: seq<Effect>): seq<Request> {
    if |log| == 0 then []
    else if log[0].Sent? && log[0].request.MoveTo? then [log[0].request] + Moves(log[1..])
    else Moves(log[1..])
  }

  /** The moves of `n` consecutive sweeps starting at counter value `from`. */
  function Cycle(ws: seq<Waypoint>, duration: int, from: nat, n: nat): seq<Request>
    decreases n
  {
    if n == 0 then [] else [MoveTo(Target(ws, from), duration)] + Cycle(ws, duration, from + 1, n - 1)
  }

  lemma {:induction false} MovesAppend(a: seq<Effect>, b: seq<Effect>)
    ensures Moves(a + b) == Moves(a) + Moves(b)
    decreases |a|
  {
    if |a| > 0 {
      assert (a + b)[1..] == a[1..] + b;
      MovesAppend(a[1..], b);
    } else {
      assert a + b == b;
    }
  }

  lemma MovesOfOne(x: Effect)
    ensures Moves([x]) == if x.Sent? && x.request.MoveTo? then [x.request] else []
  {
    assert [x][1..] == [];
  }

  lemma MovesOfDisarms(h: Option<Handle>)
    ensures Moves(Disarms(h)) == []
  {
    if h.Some? { MovesOfOne(Cleared(h.value)); }
  }

  /** What one step adds to the move log and to the counter. */
  lemma StepMoves(s: State, e: Event)
    requires Enabled(s, e)
    ensures Step(s, e).count == s.count + (if e.SweepDue? then 1 else 0)
    ensures Moves(Step(s, e).log) == Moves(s.log) + (if e.SweepDue? then [MoveTo(Target(s.config.waypoints, s.count), s.config.duration)] else [])
    ensures Step(s, e).config == s.config
  {
    var t := Step(s, e);
    match e
    case SweepDue(h, k) =>
      var sweep := Timer(SweepTimer, RandomStay(s.config, k) * 1000);
      var mv := Sent(MoveTo(Target(s.config.waypoints, s.count), s.config.duration));
      var st, si := s.snapshotTimeout, s.snapshotInterval;
      assert t.log == s.log + Disarms(st) + Disarms(si) + [mv] + [Armed(s.nextHandle, sweep)];
      MovesAppend(s.log + Disarms(st) + Disarms(si) + [mv], [Armed(s.nextHandle, sweep)]);
      MovesAppend(s.log + Disarms(st) + Disarms(si), [mv]);
      MovesAppend(s.log + Disarms(st), Disarms(si));
      MovesAppend(s.log, Disarms(st));
      MovesOfDisarms(st); MovesOfDisarms(si);
      MovesOfOne(mv); MovesOfOne(Armed(s.nextHandle, sweep));
    case MoveAnswered(target, outcome) =>
      if outcome == Status(200) {
        var settle := Timer(SettleTimer(target), SettleDelay(s.config.duration));
        MovesAppend(s.log, [Armed(s.nextHandle, settle)]);
        MovesOfOne(Armed(s.nextHandle, settle));
      }
    case SettleDue(h) =>
      var iv := Timer(CaptureInterval, s.config.frequency);
      MovesAppend(s.log, [Armed(s.nextHandle, iv)]);
      MovesOfOne(Armed(s.nextHandle, iv));
    case CaptureDue(h) =>
      MovesAppend(s.log, [Sent(Snapshot)]);
      MovesOfOne(Sent(Snapshot));
    case CaptureAnswered(_, _) =>
    case StopCalled =>
      var sw, st, si := s.swivelTimeout, s.snapshotTimeout, s.snapshotInterval;
      MovesAppend(s.log + Disarms(sw) + Disarms(st), Disarms(si));
      MovesAppend(s.log + Disarms(sw), Disarms(st));
      MovesAppend(s.log, Disarms(sw));
      MovesOfDisarms(sw); MovesOfDisarms(st); MovesOfDisarms(si);
  }

  /** One step followed by the rest of a run: the move logs and counters compose. */
  lemma ComposeMoves(s: State, t: State, r: State, sweep: bool, n: nat)
    requires t.config == s.config && r.config == t.config
    requires t.count == s.count + (if sweep then 1 else 0)
    requires Moves(t.log) == Moves(s.log) + (if sweep then [MoveTo(Target(s.config.waypoints, s.count), s.config.duration)] else [])
    requires r.count == t.count + n
    requires Moves(r.log) == Moves(t.log) + Cycle(t.config.waypoints, t.config.duration, t.count, n)
    ensures r.count == s.count + (if sweep then 1 else 0) + n
    ensures Moves(r.log) == Moves(s.log) + Cycle(s.config.waypoints, s.config.duration, s.count, (if sweep then 1 else 0) + n)
  {
    var ws, d := s.config.waypoints, s.config.duration;
    if sweep {
      var mv := MoveTo(Target(ws, s.count), d);
      var rest := Cycle(ws, d, s.count + 1, n);
      assert Cycle(ws, d, s.count, 1 + n) == [mv] + rest;
      assert Moves(s.log) + [mv] + rest == Moves(s.log) + ([mv] + rest);
    }
  }

  /** Over any run, the counter grows by exactly one per sweep, and the sweeps
      send their moves to consecutive positions of the waypoint cycle. */
  lemma {:induction false} RunMoves(s: State, es: seq<Event>)
    requires Admissible(s, es)
    ensures Run(s, es).count == s.count + SweepCount(es)
    ensures Moves(Run(s, es).log) == Moves(s.log) + Cycle(s.config.waypoints, s.config.duration, s.count, SweepCount(es))
    ensures Run(s, es).config == s.config
    decreases |es|
  {
    if |es| > 0 {
      var t := Step(s, es[0]);
      StepMoves(s, es[0]);
      RunMoves(t, es[1..]);
      assert Run(s, es) == Run(t, es[1..]);
      assert SweepCount(es) == (if es[0].SweepDue? then 1 else 0) + SweepCount(es[1..]);
      ComposeMoves(s, t, Run(t, es[1..]), es[0].SweepDue?, SweepCount(es[1..]));
    }
  }

  lemma {:induction false} CycleAt(ws: seq<Waypoint>, duration: int, from: nat, n: nat, i: nat)
    requires i < n
    ensures |Cycle(ws, duration, from, n)| == n
    ensures Cycle(ws, duration, from, n)[i] == MoveTo(Target(ws, from + i), duration)
    decreases n
  {
    if i > 0 {
      CycleAt(ws, duration, from + 1, n - 1, i - 1);
    } else if n > 1 {
      CycleAt(ws, duration, from + 1, n - 1, 0);
    }
  }

  lemma InitMoves(o: Options, k: int)
    requires ValidDraw(Configure(o), k)
    ensures var c := Configure(o);
      Moves(Init(o, k).log) == [MoveTo(Target(c.waypoints, 0), c.duration)]
  {
    var c := Configure(o);
    var mv := Sent(MoveTo(Target(c.waypoints, 0), c.duration));
    var sweep := Armed(0, Timer(SweepTimer, RandomStay(c, k) * 1000));
    assert Init(o, k).log == [mv] + [sweep];
    MovesAppend([mv], [sweep]);
    MovesOfOne(mv); MovesOfOne(sweep);
  }

  /** From a state whose only move so far went to position 0 of the cycle, the
      i-th move goes to position i. */
  lemma NthMoveFrom(s: State, es: seq<Event>, i: nat)
    requires Admissible(s, es) && i <= SweepCount(es)
    requires s.count == 1 && Moves(s.log) == [MoveTo(Target(s.config.waypoints, 0), s.config.duration)]
    ensures var r := Run(s, es);
      && r.count == 1 + SweepCount(es)
      && |Moves(r.log)| == 1 + SweepCount(es)
      && Moves(r.log)[i] == MoveTo(Target(s.config.waypoints, i), s.config.duration)
  {
    var ws, d, n := s.config.waypoints, s.config.duration, SweepCount(es);
    RunMoves(s, es);
    assert [MoveTo(Target(ws, 0), d)] + Cycle(ws, d, 1, n) == Cycle(ws, d, 0, 1 + n);
    CycleAt(ws, d, 0, 1 + n, i);
  }

  /** From construction on, the i-th call of `autoSwivel` (the constructor's is the
      0-th) moves to `waypoints[i % waypoints.length]` with the configured duration. */
  lemma NthMoveTarget(o: Options, k: int, es: seq<Event>, i: nat)
    requires ValidDraw(Configure(o), k) && Admissible(Init(o, k), es)
    requires i <= SweepCount(es)
    ensures var c := Configure(o); var r := Run(Init(o, k), es);
      && r.count == 1 + SweepCount(es)
      && |Moves(r.log)| == 1 + SweepCount(es)
      && Moves(r.log)[i] == MoveTo(Target(c.waypoints, i), c.duration)
      && (|c.waypoints| > 0 ==> Moves(r.log)[i].pos == Some(c.waypoints[i % |c.waypoints|]))
  {
    InitMoves(o, k);
    NthMoveFrom(Init(o, k), es, i);
  }

  // ---------------------------------------------------------------- the follower timers

  /** One step keeps the single-follower invariant exactly when it is not a
      successful move response arriving while a follower is already pending. */
  lemma FollowerStep(s: State, e: Event)
    requires Inv(s) && SingleFollower(s) && Enabled(s, e)
    ensures SingleFollower(Step(s, e)) <==> !(e.MoveAnswered? && e.outcome == Status(200) && HasFollower(s))
  {
    var t := Step(s, e);
    match e
    case SweepDue(h, k) =>
      forall g | g in t.timers ensures !IsFollower(t.timers[g]) {
        if g != s.nextHandle {
          assert g in s.timers && t.timers[g] == s.timers[g];
          assert Some(g) != s.snapshotTimeout && Some(g) != s.snapshotInterval;
        }
      }
    case MoveAnswered(target, outcome) =>
      if outcome == Status(200) {
        if HasFollower(s) {
          var g :| g in s.timers && IsFollower(s.timers[g]);
          assert g in t.timers && IsFollower(t.timers[g]) && g != s.nextHandle;
          assert s.nextHandle in t.timers && IsFollower(t.timers[s.nextHandle]);
        } else {
          forall g | g in t.timers && g != s.nextHandle ensures !IsFollower(t.timers[g]) {
            assert g in s.timers && t.timers[g] == s.timers[g];
          }
        }
      }
    case SettleDue(h) =>
      forall g | g in t.timers && g != s.nextHandle ensures !IsFollower(t.timers[g]) {
        assert g in s.timers && g != h && t.timers[g] == s.timers[g];
      }
    case CaptureDue(h) =>
    case CaptureAnswered(_, _) =>
    case StopCalled =>
      forall g | g in t.timers ensures !IsFollower(t.timers[g]) {
        assert g in s.timers && t.timers[g] == s.timers[g];
      }
  }

  /** Runs in which no successful move response meets a pending follower. */
  predicate Orderly(s: State, es: seq<Event>)
    requires Admissible(s, es)
    decreases |es|
  {
    |es| == 0 ||
    (!(es[0].MoveAnswered? && es[0].outcome == Status(200) && HasFollower(s)) && Orderly(Step(s, es[0]), es[1..]))
  }

  lemma {:induction false} OrderlyRunSingleFollower(s: State, es: seq<Event>)
    requires Inv(s) && SingleFollower(s) && Admissible(s, es) && Orderly(s, es)
    ensures SingleFollower(Run(s, es))
    decreases |es|
  {
    if |es| > 0 {
      FollowerStep(s, es[0]);
      StepPreservesInv(s, es[0]);
      OrderlyRunSingleFollower(Step(s, es[0]), es[1..]);
    }
  }

  /** With a single follower, `stop` leaves no timer pending at all. */
  lemma StopClearsAll(s: State)
    requires Inv(s) && SingleFollower(s)
    ensures Stop(s).timers == map[]
  {
    var t := Stop(s);
    forall g | g in s.timers ensures g !in t.timers {
      if s.timers[g].kind == SweepTimer {
        assert s.swivelTimeout == Some(g);
      } else {
        assert Slot(s, s.timers[g].kind) == Some(g);
      }
    }
    assert t.timers.Keys == {};
  }

  /** Calling `stop` twice leaves the same object and the same pending timers as
      calling it once; only the repeated, harmless `clearTimeout` calls differ. */
  lemma StopIdempotent(s: State)
    ensures Stop(Stop(s)).(log := []) == Stop(s).(log := [])
    ensures Stop(Stop(s)).log == Stop(s).log + Disarms(s.swivelTimeout) + Disarms(s.snapshotTimeout) + Disarms(s.snapshotInterval)
  {
  }

  predicate IsMoveOk(e: Event) {
    e.MoveAnswered? && e.outcome == Status(200)
  }

  /** With nothing pending, only a successful move response can arm a timer again. */
  lemma {:induction false} QuietUntilMoveOk(s: State, es: seq<Event>)
    requires s.timers == map[] && Admissible(s, es)
    requires forall i | 0 <= i < |es| :: !IsMoveOk(es[i])
    ensures Run(s, es).timers == map[]
    decreases |es|
  {
    if |es| > 0 {
      QuietUntilMoveOk(Step(s, es[0]), es[1..]);
    }
  }

  /** A move response that arrives after `stop` still arms a settle timer. */
  lemma LateMoveOkArmsAfterStop(s: State, target: Option<Waypoint>)
    requires target in s.inflightMoves
    ensures var t := OnMoveResponse(Stop(s), target, Status(200));
      s.nextHandle in t.timers && t.timers[s.nextHandle].kind == SettleTimer(target)
  {
  }

  /** Once the sweep timer is gone, a pending capture interval is cleared by
      nothing but `stop`: no callback removes or replaces it. */
  lemma StepKeepsInterval(s: State, e: Event, h: Handle)
    requires Inv(s) && NoSweepTimer(s) && Enabled(s, e) && e != StopCalled
    requires h in s.timers && s.timers[h].kind == CaptureInterval
    ensures h in Step(s, e).timers && Step(s, e).timers[h] == s.timers[h]
    ensures NoSweepTimer(Step(s, e))
  {
    NoSweepAfterStop(s, [e]);
    assert Run(s, [e]) == Step(s, e);
  }

  lemma {:induction false} IntervalSurvives(s: State, es: seq<Event>, h: Handle)
    requires Inv(s) && NoSweepTimer(s) && Admissible(s, es)
    requires forall i | 0 <= i < |es| :: es[i] != StopCalled
    requires h in s.timers && s.timers[h].kind == CaptureInterval
    ensures h in Run(s, es).timers && Run(s, es).timers[h] == s.timers[h]
    decreases |es|
  {
    if |es| > 0 {
      StepKeepsInterval(s, es[0], h);
      StepPreservesInv(s, es[0]);
      IntervalSurvives(Step(s, es[0]), es[1..], h);
    }
  }

  /** The capture interval that a late acknowledgement starts after `stop` keeps
      ticking along every run without `stop`, and `stop` called once more clears it. */
  lemma LateIntervalNeedsSecondStop()
    ensures var o := Options("broker", None, "cam", None, None, None, None, None);
      var s1 := OnMoveResponse(Stop(Init(o, 0)), Some("c"), Status(200));
      1 in s1.timers && s1.timers[1].kind.SettleTimer? &&
      var s2 := OnSettleFire(s1, 1);
      && s2.timers == map[2 := Timer(CaptureInterval, 2500)]
      && Inv(s2) && NoSweepTimer(s2)
      && Stop(s2).timers == map[]
  {
    var o := Options("broker", None, "cam", None, None, None, None, None);
    var s0 := Stop(Init(o, 0));
    assert s0.timers == map[] && s0.inflightMoves == multiset{Some("c")};
    var s1 := OnMoveResponse(s0, Some("c"), Status(200));
    assert s1.timers == map[1 := Timer(SettleTimer(Some("c")), 2800)];
    var s2 := OnSettleFire(s1, 1);
    assert s2.snapshotInterval == Some(2);
  }

  /** No callback clears that late interval: along every run without `stop` it
      stays pending, unchanged. */
  lemma LateIntervalKeepsTicking(es: seq<Event>)
    ensures var o := Options("broker", None, "cam", None, None, None, None, None);
      var s1 := OnMoveResponse(Stop(Init(o, 0)), Some("c"), Status(200));
      1 in s1.timers && s1.timers[1].kind.SettleTimer? &&
      var s2 := OnSettleFire(s1, 1);
      Admissible(s2, es) && (forall i | 0 <= i < |es| :: es[i] != StopCalled) ==>
        2 in Run(s2, es).timers && Run(s2, es).timers[2] == Timer(CaptureInterval, 2500)
  {
    LateIntervalNeedsSecondStop();
    var o := Options("broker", None, "cam", None, None, None, None, None);
    var s2 := OnSettleFire(OnMoveResponse(Stop(Init(o, 0)), Some("c"), Status(200)), 1);
    if Admissible(s2, es) && (forall i | 0 <= i < |es| :: es[i] != StopCalled) {
      IntervalSurvives(s2, es, 2);
    }
  }

  /** A race the code allows: the sweep timer fires
      before the first move is answered, both moves are answered with 200, and two
      settle timers are pending; `stop` then clears only the later one. */
  lemma TwoSettleTimersScenario()
    ensures var o := Options("broker", None, "cam", None, None, None, None, None);
      var s0 := Init(o, 0);
      var s1 := OnSweepFire(s0, 0, 0);
      var s2 := OnMoveResponse(s1, Some("c"), Status(200));
      var s3 := OnMoveResponse(s2, Some("a"), Status(200));
      var s4 := Stop(s3);
      && s3.timers[2] == Timer(SettleTimer(Some("c")), 2800)
      && s3.timers[3] == Timer(SettleTimer(Some("a")), 2800)
      && !SingleFollower(s3)
      && 2 in s4.timers && 3 !in s4.timers
  {
    var o := Options("broker", None, "cam", None, None, None, None, None);
    var c := Configure(o);
    assert c.waypoints == ["c", "a", "b"] && c.duration == 2000;
    var s0 := Init(o, 0);
    assert s0.inflightMoves == multiset{Some("c")};
    var s1 := OnSweepFire(s0, 0, 0);
    assert Target(c.waypoints, 1) == Some("a");
    assert s1.inflightMoves == multiset{Some("c"), Some("a")};
    assert s1.nextHandle == 2;
    var s2 := OnMoveResponse(s1, Some("c"), Status(200));
    assert s2.inflightMoves == multiset{Some("a")};
    var s3 := OnMoveResponse(s2, Some("a"), Status(200));
    assert s3.snapshotTimeout == Some(3);
    assert 2 in s3.timers && IsFollower(s3.timers[2]);
    assert Slot(s3, s3.timers[2].kind) != Some(2);
  }

  // ---------------------------------------------------------------- the current waypoint and the store

  /** The current waypoint changes only when a settle timer fires; so `getWaypoint`
      is undefined from construction until the first settle completes. */
  lemma {:induction false} WaypointOnlyFromSettle(s: State, es: seq<Event>)
    requires Admissible(s, es)
    requires forall i | 0 <= i < |es| :: !es[i].SettleDue?
    ensures Run(s, es).waypoint == s.waypoint
    decreases |es|
  {
    if |es| > 0 {
      WaypointOnlyFromSettle(Step(s, es[0]), es[1..]);
    }
  }

  predicate IsCaptureOk(e: Event) {
    e.CaptureAnswered? && e.outcome == Status(200)
  }

  /** Only a successful capture response changes the store; in particular `stop`
      and everything after it leave the last images readable. */
  lemma {:induction false} StoreOnlyFromCaptures(s: State, es: seq<Event>)
    requires Admissible(s, es)
    requires forall i | 0 <= i < |es| :: !IsCaptureOk(es[i])
    ensures Run(s, es).snapshots == s.snapshots
    decreases |es|
  {
    if |es| > 0 {
      StoreOnlyFromCaptures(Step(s, es[0]), es[1..]);
    }
  }

  lemma BoundedAfterSweep(s: State, h: Handle, k: int)
    requires Bounded(s) && Enabled(s, SweepDue(h, k))
    ensures Bounded(OnSweepFire(s, h, k))
  {
    var t := OnSweepFire(s, h, k);
    var ws := s.config.waypoints;
    assert IsTarget(ws, Target(ws, s.count));
    forall x | x in t.inflightMoves ensures IsTarget(ws, x) {
      assert x in s.inflightMoves || x == Target(ws, s.count);
    }
    forall g | g in t.timers && t.timers[g].kind.SettleTimer? ensures IsTarget(ws, t.timers[g].kind.target) {
      assert g in s.timers && t.timers[g] == s.timers[g];
    }
    forall g | g in t.timers && t.timers[g].kind == CaptureInterval ensures |ws| > 0 ==> t.waypoint.Some? {
      assert g in s.timers && t.timers[g] == s.timers[g];
    }
  }

  lemma BoundedAfterMoveResponse(s: State, target: Option<Waypoint>, outcome: Outcome)
    requires Bounded(s) && Enabled(s, MoveAnswered(target, outcome))
    ensures Bounded(OnMoveResponse(s, target, outcome))
  {
    var t := OnMoveResponse(s, target, outcome);
    var ws := s.config.waypoints;
    forall x | x in t.inflightMoves ensures IsTarget(ws, x) {
      assert x in s.inflightMoves;
    }
    forall g | g in t.timers && t.timers[g].kind.SettleTimer? ensures IsTarget(ws, t.timers[g].kind.target) {
      if g != s.nextHandle { assert g in s.timers && t.timers[g] == s.timers[g]; }
    }
  }

  lemma StepPreservesBounded(s: State, e: Event)
    requires Bounded(s) && Enabled(s, e)
    ensures Bounded(Step(s, e))
  {
    var ws := s.config.waypoints;
    match e
    case SweepDue(h, k) => BoundedAfterSweep(s, h, k);
    case MoveAnswered(target, outcome) => BoundedAfterMoveResponse(s, target, outcome);
    case SettleDue(h) =>
      assert IsTarget(ws, s.timers[h].kind.target);
    case CaptureDue(h) =>
      assert |ws| > 0 ==> s.waypoint.Some?;
    case CaptureAnswered(outcome, body) =>
    case StopCalled =>
  }

  /** Along any run from construction the store only ever holds configured waypoints
      (or "undefined" for an empty waypoint list), so it never outgrows that set. */
  lemma {:induction false} RunBounded(s: State, es: seq<Event>)
    requires Bounded(s) && Admissible(s, es)
    ensures Bounded(Run(s, es))
    ensures forall key | key in Run(s, es).snapshots :: key in s.config.waypoints || (|s.config.waypoints| == 0 && key == "undefined")
    decreases |es|
  {
    if |es| > 0 {
      StepPreservesBounded(s, es[0]);
      StepMoves(s, es[0]);
      RunBounded(Step(s, es[0]), es[1..]);
    }
  }
}
