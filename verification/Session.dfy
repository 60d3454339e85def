/**
 The worker's reconnect loop (services/notification-worker/src/messaging/consumer.service.ts, `run`,
 `consumeUntilClosed`, `connectWithTimeout`, `onModuleDestroy`). Each method is one uninterrupted stretch of the code.
 */
module Session {
  import opened Common

  type Conn = nat

  /** Where the loop is waiting. */
  datatype Phase =
    | Backoff
    | Connecting
    | SettingUp(conn: Conn)
    | Consuming(conn: Conn)
    | Closing(conn: Conn)
    | Stopped

  class ConsumerSession {
    var conn: Option<Conn>
    var channel: Option<Conn>
    var consumerTag: Option<Conn>
    var stopping: bool
    var phase: Phase
    /** onModuleDestroy waits for the consumer's cancellation and for the messages in flight. */
    var draining: bool

    var established: set<Conn>
    var closeRequested: set<Conn>
    /** connect() calls that lost the race against the outer timer and have not settled yet. */
    var unsettled: nat

    constructor ()
      ensures Valid() && !stopping && !draining && phase == Connecting && established == {} && closeRequested == {}
    {
      conn, channel, consumerTag, stopping, draining, phase := None, None, None, false, false, Connecting;
      established, closeRequested, unsettled := {}, {}, 0;
    }

    /** The connection the current session owns, if it has one. */
    ghost predicate Owns(c: Conn)
      reads this
    {
      phase == SettingUp(c) || phase == Consuming(c) || phase == Closing(c)
    }

    ghost predicate Valid()
      reads this
    {
      // The three fields are set together, for the connection being consumed, or not at all.
      && conn == channel == consumerTag
      && conn == (if phase.Consuming? then Some(phase.conn) else None)
      // No connection is forgotten: the session owns it or its close has been requested.
      && (forall c :: c in established ==> Owns(c) || c in closeRequested)
      && (forall c :: Owns(c) ==> c in established)
      && (forall c :: phase == Closing(c) ==> c in closeRequested)
      && closeRequested <= established
      && (phase == Stopped ==> stopping && closeRequested == established)
      && (draining ==> stopping)
    }

    /** isConnected */
    method IsConnected() returns (yes: bool)
      requires Valid()
      ensures yes <==> phase.Consuming? && !stopping
    {
      yes := channel.Some? && !stopping;
    }

    method ConnectSucceeds(c: Conn)
      requires Valid() && phase == Connecting && c !in established
      modifies this`phase, this`established
      ensures Valid() && phase == SettingUp(c) && established == old(established) + {c}
    {
      established, phase := established + {c}, SettingUp(c);
    }

    /** The attempt failed, or the outer timer won and the attempt is still pending. The loop goes on unless stopping. */
    method ConnectFails(timedOut: bool)
      requires Valid() && phase == Connecting
      modifies this`phase, this`unsettled
      ensures Valid() && phase == (if stopping then Stopped else Backoff)
      ensures unsettled == old(unsettled) + if timedOut then 1 else 0
    {
      unsettled := unsettled + if timedOut then 1 else 0;
      phase := if stopping then Stopped else Backoff;
    }

    /** A connection that arrives after the timer gave up is closed at once, in whatever phase the loop is by then. */
    method LateConnect(c: Conn)
      requires Valid() && unsettled > 0 && c !in established
      modifies this`established, this`closeRequested, this`unsettled
      ensures Valid() && unsettled == old(unsettled) - 1
      ensures established == old(established) + {c} && closeRequested == old(closeRequested) + {c}
    {
      established, closeRequested, unsettled := established + {c}, closeRequested + {c}, unsettled - 1;
    }

    /** Channel, prefetch and consume succeeded: deliveries start, even when `stopping` was set meanwhile. */
    method SetupSucceeds()
      requires Valid() && phase.SettingUp?
      modifies this`conn, this`channel, this`consumerTag, this`phase
      ensures Valid() && phase == Consuming(old(phase).conn)
    {
      conn, channel, consumerTag := Some(phase.conn), Some(phase.conn), Some(phase.conn);
      phase := Consuming(phase.conn);
    }

    /** Setup failed, or the session's connection or channel closed: the `finally` clears the fields and closes. */
    method SessionEnds()
      requires Valid() && (phase.SettingUp? || phase.Consuming?)
      modifies this`conn, this`channel, this`consumerTag, this`phase, this`closeRequested
      ensures Valid() && phase == Closing(old(phase).conn)
      ensures closeRequested == old(closeRequested) + {old(phase).conn}
    {
      conn, channel, consumerTag := None, None, None;
      closeRequested := closeRequested + {phase.conn};
      phase := Closing(phase.conn);
    }

    /** The close returned or timed out. */
    method CloseReturns()
      requires Valid() && phase.Closing?
      modifies this`phase
      ensures Valid() && phase == (if stopping then Stopped else Backoff)
    {
      phase := if stopping then Stopped else Backoff;
    }

    /** The delay passed, or `wake` cut it short: the loop condition is evaluated. */
    method BackoffEnds()
      requires Valid() && phase == Backoff
      modifies this`phase
      ensures Valid() && phase == (if stopping then Stopped else Connecting)
    {
      phase := if stopping then Stopped else Connecting;
    }

    /** onModuleDestroy up to its first wait: no new session starts and a sleeping loop is woken. */
    method BeginShutdown()
      requires Valid() && !stopping
      modifies this`stopping, this`draining, this`phase
      ensures Valid() && stopping && draining
      ensures phase == if old(phase) == Backoff then Stopped else old(phase)
    {
      stopping, draining := true, true;
      if phase == Backoff {
        phase := Stopped;
      }
    }

    /** onModuleDestroy after the drain: the connection consumed by then, if any, is closed. */
    method CloseAfterDrain()
      requires Valid() && draining
      modifies this`draining, this`closeRequested
      ensures Valid() && !draining
      ensures closeRequested == old(closeRequested) + if phase.Consuming? then {phase.conn} else {}
    {
      draining := false;
      if conn.Some? {
        closeRequested := closeRequested + {conn.value};
      }
    }
  }

  datatype Event =
    | Connected(c: Conn)
    | Unconnected(timedOut: bool)
    | Late(c: Conn)
    | SetUp
    | Ended
    | Closed
    | Elapsed
    | Shutdown
    | Drained

  /** The session is on its way to consuming: it is connecting or being set up. */
  predicate Starting(phase: Phase) {
    phase.Connecting? || phase.SettingUp?
  }

  /**
   For every sequence of events, in every order, no connection is ever forgotten and the three fields agree. Once
   shutdown has begun no further connection attempt starts, and a session that was not starting by then never begins
   to consume.
   */
  method Drive(s: ConsumerSession, events: seq<Event>)
    requires s.Valid()
    modifies s
    ensures s.Valid()
    ensures old(s.stopping) ==> s.stopping
    ensures old(s.stopping) && old(s.phase) != Connecting ==> s.phase != Connecting
    ensures old(s.stopping) && !Starting(old(s.phase)) ==> !Starting(s.phase)
    ensures old(s.stopping) && !Starting(old(s.phase)) && s.phase.Consuming? ==> s.phase == old(s.phase)
  {
    for i := 0 to |events|
      invariant s.Valid()
      invariant old(s.stopping) ==> s.stopping
      invariant old(s.stopping) && old(s.phase) != Connecting ==> s.phase != Connecting
      invariant old(s.stopping) && !Starting(old(s.phase)) ==> !Starting(s.phase)
      invariant old(s.stopping) && !Starting(old(s.phase)) && s.phase.Consuming? ==> s.phase == old(s.phase)
    {
      match events[i] {
        case Connected(c) =>
          if s.phase == Connecting && c !in s.established {
            s.ConnectSucceeds(c);
          }
        case Unconnected(timedOut) =>
          if s.phase == Connecting {
            s.ConnectFails(timedOut);
          }
        case Late(c) =>
          if s.unsettled > 0 && c !in s.established {
            s.LateConnect(c);
          }
        case SetUp =>
          if s.phase.SettingUp? {
            s.SetupSucceeds();
          }
        case Ended =>
          if s.phase.SettingUp? || s.phase.Consuming? {
            s.SessionEnds();
          }
        case Closed =>
          if s.phase.Closing? {
            s.CloseReturns();
          }
        case Elapsed =>
          if s.phase == Backoff {
            s.BackoffEnds();
          }
        case Shutdown =>
          if !s.stopping {
            s.BeginShutdown();
          }
        case Drained =>
          if s.draining {
            s.CloseAfterDrain();
          }
      }
    }
  }

  /** The converse: every session that was starting can still begin to consume. `c` is the connection it may get. */
  method StartingGoesOn(s: ConsumerSession, c: Conn)
    requires s.Valid() && s.stopping && Starting(s.phase) && c !in s.established
    modifies s
    ensures s.Valid() && s.stopping && s.draining == old(s.draining)
    ensures s.phase == Consuming(if old(s.phase).SettingUp? then old(s.phase).conn else c)
    ensures s.closeRequested == old(s.closeRequested)
  {
    if s.phase == Connecting {
      s.ConnectSucceeds(c);
    }
    s.SetupSucceeds();
  }

  /**
   A session whose connect (or, with `connected`, whose setup) was under way when shutdown began consumes after
   onModuleDestroy looked for a connection to close: nothing has asked for its close.
   */
  method ConsumesWhileStopping(connected: bool) returns (s: ConsumerSession)
    ensures s.Valid() && s.stopping && !s.draining && s.phase == Consuming(1) && s.closeRequested == {}
  {
    s := new ConsumerSession();
    if connected {
      s.ConnectSucceeds(1);
    }
    s.BeginShutdown();
    s.CloseAfterDrain();
    StartingGoesOn(s, if connected then 2 else 1);
  }
}

/** The delays of the reconnect loop and the time shutdown takes. All times are in milliseconds. */
module Timing {
  import opened Common

  const FIRST_DELAY := 1000
  const MAX_BACKOFF_MS := 10_000
  const HEALTHY_MS := 30_000

  function Pow2(k: nat): nat {
    if k == 0 then 1 else 2 * Pow2(k - 1)
  }

  /** How many sessions in a row, up to and including session `i`, were short. */
  function ShortStreak(sessions: seq<nat>, i: nat): nat
    requires i < |sessions|
  {
    if sessions[i] > 30_000 then 0 else 1 + if i == 0 then 0 else ShortStreak(sessions, i - 1)
  }

  function Delay(streak: nat): int {
    Min(1000 * Pow2(streak), 10_000)
  }

  lemma FirstDelay()
    ensures Delay(0) == FIRST_DELAY
  {
  }

  /** One more short session doubles the delay, up to the cap. */
  lemma DelayDoubles(streak: nat)
    ensures Min(Delay(streak) * 2, MAX_BACKOFF_MS) == Delay(streak + 1)
  {
    assert Pow2(streak + 1) == 2 * Pow2(streak);
  }

  /** run: the delay scheduled after each session, given how long the sessions lasted. */
  method Run(sessions: seq<nat>) returns (waits: seq<int>)
    ensures |waits| == |sessions|
    ensures forall i :: 0 <= i < |sessions| ==> waits[i] == Delay(ShortStreak(sessions, i))
  {
    hide Delay, Pow2;
    var delay := FIRST_DELAY;
    waits := [];
    FirstDelay();
    ghost var streak := 0;
    for i := 0 to |sessions|
      invariant |waits| == i
      invariant streak == if i == 0 then 0 else ShortStreak(sessions, i - 1)
      invariant delay == Delay(streak)
      invariant forall j :: 0 <= j < i ==> waits[j] == Delay(ShortStreak(sessions, j))
    {
      DelayDoubles(streak);
      delay := if sessions[i] > HEALTHY_MS then FIRST_DELAY else Min(delay * 2, MAX_BACKOFF_MS);
      streak := ShortStreak(sessions, i);
      waits := waits + [delay];
    }
  }

  /** Delays never leave [1000, 10000], grow with the streak, and are capped from the fourth short session on. */
  lemma {:induction false} DelayBounds(streak: nat)
    ensures 1000 <= Delay(streak) <= Delay(streak + 1) <= 10_000
    ensures Delay(streak) == 10_000 <==> streak >= 4
  {
    if streak < 4 {
      assert Pow2(1) == 2 && Pow2(2) == 4 && Pow2(3) == 8 && Pow2(4) == 16;
    } else if streak > 4 {
      DelayBounds(streak - 1);
    } else {
      assert Pow2(4) == 2 * Pow2(3) && Pow2(3) == 2 * Pow2(2) && Pow2(2) == 2 * Pow2(1) && Pow2(1) == 2;
    }
  }

  const CANCEL_TIMEOUT_MS := 1000
  const DRAIN_TIMEOUT_MS := 5000
  const CLOSE_TIMEOUT_MS := 1000
  const LOOP_TIMEOUT_MS := 1000
  const SHUTDOWN_TIMEOUT_MS := 2000

  /** How long an operation takes to settle; None when it never does. */
  type Duration = Option<nat>

  /** The time `withTimeout` waits. */
  function Bounded(d: Duration, timeout: nat): nat {
    if d.Some? && d.value < timeout then d.value else timeout
  }

  /** Promise.allSettled: settled when the slowest is. */
  function Slowest(work: seq<Duration>): Duration {
    if work == [] then Some(0)
    else
      var rest := Slowest(work[1..]);
      if work[0].None? || rest.None? then None
      else if work[0].value >= rest.value then work[0] else rest
  }

  /** The operation is still unsettled when the bound is reached. */
  predicate Exhausts(d: Duration, timeout: nat) {
    d.None? || d.value >= timeout
  }

  /** The drain is exhausted exactly when one of the messages in flight outlasts it. */
  lemma {:induction false} SlowestExhausts(work: seq<Duration>, timeout: nat)
    requires timeout > 0
    ensures Exhausts(Slowest(work), timeout) <==> exists i :: 0 <= i < |work| && Exhausts(work[i], timeout)
  {
    if work != [] {
      SlowestExhausts(work[1..], timeout);
      if Exhausts(Slowest(work[1..]), timeout) {
        var i :| 0 <= i < |work[1..]| && Exhausts(work[1..][i], timeout);
        assert Exhausts(work[i + 1], timeout);
      }
      assert forall i :: 1 <= i < |work| ==> work[i] == work[1..][i - 1];
    }
  }

  /** What shutdown meets; `consuming` and `looping` tell whether there is a consumer to cancel and a loop to await. */
  datatype Situation = Situation(
    consuming: bool,
    cancel: Duration,
    inFlight: seq<Duration>,
    connected: bool,
    close: Duration,
    looping: bool,
    loop: Duration,
    telemetry: Option<Duration>)

  /** Every wait of onModuleDestroy runs into its bound. */
  ghost predicate DestroyExhausted(s: Situation) {
    && s.consuming && Exhausts(s.cancel, CANCEL_TIMEOUT_MS)
    && (exists i :: 0 <= i < |s.inFlight| && Exhausts(s.inFlight[i], DRAIN_TIMEOUT_MS))
    && s.connected && Exhausts(s.close, CLOSE_TIMEOUT_MS)
    && s.looping && Exhausts(s.loop, LOOP_TIMEOUT_MS)
  }

  /** Waiting for `d` takes `wait`: until it settles, but no longer than `bound`. */
  predicate WaitsFor(wait: nat, d: Duration, bound: nat) {
    match d
    case None => wait == bound
    case Some(t) => if t <= bound then wait == t else wait == bound
  }

  /** Waiting for all of `work` takes `wait`: until the last of it settles, but no longer than `bound`. */
  ghost predicate WaitsForAll(wait: nat, work: seq<Duration>, bound: nat) {
    && wait <= bound
    && (wait == bound || forall i :: 0 <= i < |work| ==> work[i].Some? && work[i].value <= wait)
    && (wait == 0 || exists i :: 0 <= i < |work| && Outlasts(work[i], wait))
  }

  /** The work is not over before `wait`. */
  predicate Outlasts(d: Duration, wait: nat) {
    d.Some? ==> d.value >= wait
  }

  lemma {:induction false} SlowestIsLast(work: seq<Duration>)
    ensures Slowest(work).Some? ==> forall i :: 0 <= i < |work| ==> work[i].Some? && work[i].value <= Slowest(work).value
    ensures Slowest(work) == Some(0) || exists i :: 0 <= i < |work| && work[i] == Slowest(work)
  {
    if work != [] {
      SlowestIsLast(work[1..]);
      assert forall i :: 1 <= i < |work| ==> work[i] == work[1..][i - 1];
      assert work[0] == Slowest(work) || Slowest(work) == Slowest(work[1..]);
      if Slowest(work) != work[0] && Slowest(work[1..]) != Some(0) {
        var i :| 0 <= i < |work[1..]| && work[1..][i] == Slowest(work[1..]);
        assert work[i + 1] == Slowest(work);
      }
    }
  }

  lemma DrainWaits(work: seq<Duration>, bound: nat)
    ensures WaitsForAll(Bounded(Slowest(work), bound), work, bound)
  {
    hide Slowest;
    SlowestIsLast(work);
    var wait := Bounded(Slowest(work), bound);
    if wait != 0 {
      var i :| 0 <= i < |work| && work[i] == Slowest(work);
      assert Outlasts(work[i], wait);
    }
  }

  /**
   onModuleDestroy. `waits` lists its four waits, 0 for one that is skipped; their sum is at most 8 s, and exactly 8 s
   when every wait runs into its bound.
   */
  method OnModuleDestroy(s: Situation) returns (elapsed: nat, waits: seq<nat>)
    ensures |waits| == 4 && elapsed == waits[0] + waits[1] + waits[2] + waits[3]
    ensures if s.consuming then WaitsFor(waits[0], s.cancel, 1000) else waits[0] == 0
    ensures WaitsForAll(waits[1], s.inFlight, 5000)
    ensures if s.connected then WaitsFor(waits[2], s.close, 1000) else waits[2] == 0
    ensures if s.looping then WaitsFor(waits[3], s.loop, 1000) else waits[3] == 0
    ensures elapsed <= 8000
    ensures elapsed == 8000 <==> DestroyExhausted(s)
  {
    hide Slowest, WaitsForAll;
    var cancel := if s.consuming then Bounded(s.cancel, CANCEL_TIMEOUT_MS) else 0;
    var drain := Bounded(Slowest(s.inFlight), DRAIN_TIMEOUT_MS);
    SlowestExhausts(s.inFlight, DRAIN_TIMEOUT_MS);
    DrainWaits(s.inFlight, DRAIN_TIMEOUT_MS);
    var close := if s.connected then Bounded(s.close, CLOSE_TIMEOUT_MS) else 0;
    var loop := if s.looping then Bounded(s.loop, LOOP_TIMEOUT_MS) else 0;
    waits := [cancel, drain, close, loop];
    elapsed := cancel + drain + close + loop;
  }

  /**
   Both shutdown stages, the telemetry flush strictly after the consumer. The pair never exceeds the grace period, but
   uses all of it in exactly one situation: the strict margin the comment in the source asks for is missing there.
   */
  method ShutDown(s: Situation) returns (elapsed: nat, destroy: nat)
    ensures destroy <= 8000 && destroy <= elapsed && (destroy == 8000 <==> DestroyExhausted(s))
    ensures if s.telemetry.Some? then WaitsFor(elapsed - destroy, s.telemetry.value, 2000) else elapsed == destroy
    ensures elapsed <= 10_000
    ensures elapsed < 10_000 <==>
              !(DestroyExhausted(s) && s.telemetry.Some? && Exhausts(s.telemetry.value, SHUTDOWN_TIMEOUT_MS))
  {
    var waits;
    destroy, waits := OnModuleDestroy(s);
    elapsed := destroy;
    if s.telemetry.Some? {
      elapsed := elapsed + Bounded(s.telemetry.value, SHUTDOWN_TIMEOUT_MS);
    }
  }

  const NEVER := Situation(true, None, [None], true, None, true, None, Some(None))

  /** The bound is attained: with a broker and a collector that never answer, shutdown takes the whole grace period. */
  lemma GracePeriodIsReached()
    ensures DestroyExhausted(NEVER) && NEVER.telemetry.Some? && Exhausts(NEVER.telemetry.value, SHUTDOWN_TIMEOUT_MS)
  {
    assert Exhausts(NEVER.inFlight[0], DRAIN_TIMEOUT_MS);
  }
}
