/**
 * The drone coordinator: it starts the command sender, the configuration and
 * navigation-data retrievers, folds their readiness signals into a five-valued
 * startup state, logs in with five acknowledged commands, waits for the
 * configuration dump, then starts the video retriever and waits for READY.
 *
 * Threads are replaced by a sequential schedule. A busy-wait
 * `while (!condition) sleep(WAIT_PERIOD)` checks its condition and, when it
 * does not hold yet, lets one period pass: the callbacks the workers deliver
 * during that period are one `Tick`, taken from the finite schedule `ticks`.
 * A wait that finds the schedule used up gives up and reports failure, where
 * the original would poll for ever.
 */
module Coordinator {
  import opened DroneTypes

  const WAIT_PERIOD: nat := 15

  datatype Worker = CommandSender | NavigationDataRetriever | ConfigurationDataRetriever | VideoRetriever

  /** The two video retrievers; one is chosen once, by the drone version. */
  datatype DroneVersion = ArDrone1 | ArDrone2
  datatype VideoRetrieverVariant = ArDroneOneVideoRetriever | ArDroneTwoVideoRetriever

  /** A callback from a worker, as wired up by the coordinator's listeners. */
  datatype Event =
    | ReadyStateChange(worker: Worker, readyState: ReadyState)
    | NavDataReceived(navData: NavData)
    | ConfigurationReceived(configuration: DroneConfiguration)

  /** The callbacks delivered during one WAIT_PERIOD sleep, in order. */
  type Tick = seq<Event>

  datatype WorkerAction = StartWorker(worker: Worker) | StopWorker(worker: Worker)

  /** The fields the callbacks overwrite: state, latest nav data, latest configuration. */
  datatype Observed = Observed(state: ControllerState, navData: Option<NavData>,
                               configuration: Option<DroneConfiguration>)

  /**
   * The login values (the identifier keys of DroneConfiguration and the
   * identifiers of DroneControllerConfig), whose definitions are not part of
   * this model.
   */
  datatype LoginSettings = LoginSettings(sessionIdKey: string, sessionId: string,
                                         profileIdKey: string, profileId: string,
                                         applicationIdKey: string, applicationId: string)

  // ---------------------------------------------------------------------------
  // Callbacks
  // ---------------------------------------------------------------------------

  /** `workerReady`: one step along the startup states per READY, whoever sent it. */
  function NextOnWorkerReady(state: ControllerState, readyState: ReadyState): ControllerState
  {
    if readyState == Ready then
      if state == Started then CommandOneRetrieverReady
      else if state == CommandOneRetrieverReady then CommandTwoRetrieversReady
      else WorkersReady
    else state
  }

  /** `videoRetrieverReady`: READY from the video retriever ends startup. */
  function NextOnVideoReady(state: ControllerState, readyState: ReadyState): ControllerState
  {
    if readyState == Ready then ControllerReady else state
  }

  /** One callback, routed as `addListeners` routes it. */
  function Apply(o: Observed, e: Event): Observed
  {
    match e
    case ReadyStateChange(worker, readyState) =>
      if worker == VideoRetriever then o.(state := NextOnVideoReady(o.state, readyState))
      else o.(state := NextOnWorkerReady(o.state, readyState))
    case NavDataReceived(navData) => o.(navData := Some(navData))
    case ConfigurationReceived(configuration) => o.(configuration := Some(configuration))
  }

  function ApplyAll(o: Observed, events: seq<Event>): Observed
    decreases |events|
  {
    if events == [] then o else ApplyAll(Apply(o, events[0]), events[1..])
  }

  /** The fields after the first `n` ticks of the schedule. */
  function After(o: Observed, ticks: seq<Tick>, n: nat): Observed
    requires n <= |ticks|
  {
    if n == 0 then o else ApplyAll(After(o, ticks, n - 1), ticks[n - 1])
  }

  /** A READY from any of the three base workers moves the state the same way. */
  lemma ReadySenderIrrelevant(o: Observed, w1: Worker, w2: Worker, readyState: ReadyState)
    requires w1 != VideoRetriever && w2 != VideoRetriever
    ensures Apply(o, ReadyStateChange(w1, readyState)) == Apply(o, ReadyStateChange(w2, readyState))
  {
  }

  /** The startup state after `k` base-worker READY signals from STARTED. */
  function ReadinessAfter(k: nat): ControllerState
  {
    if k == 0 then Started
    else if k == 1 then CommandOneRetrieverReady
    else if k == 2 then CommandTwoRetrieversReady
    else WorkersReady
  }

  predicate IsBaseWorkerSignal(e: Event)
  {
    e.ReadyStateChange? && e.worker != VideoRetriever
  }

  predicate IsVideoSignal(e: Event)
  {
    e.ReadyStateChange? && e.worker == VideoRetriever
  }

  function ReadyCount(events: seq<Event>): nat
    decreases |events|
  {
    if events == [] then 0
    else (if events[0].ReadyStateChange? && events[0].readyState == Ready then 1 else 0) +
         ReadyCount(events[1..])
  }

  /**
   * Readiness is a counter: after any mix of callbacks without a video
   * signal the state is the one reached by counting the base workers' READY
   * signals (NOT_READY, nav data and configurations are ignored). So from
   * STARTED the state is WORKERS_READY after three READY signals, from any
   * workers, and not after fewer. Signals alone touch nothing but the state.
   */
  lemma {:induction false} ReadinessCountsSignals(o: Observed, k: nat, events: seq<Event>)
    requires o.state == ReadinessAfter(k)
    requires forall i :: 0 <= i < |events| ==> !IsVideoSignal(events[i])
    ensures ApplyAll(o, events).state == ReadinessAfter(k + ReadyCount(events))
    ensures (forall i :: 0 <= i < |events| ==> IsBaseWorkerSignal(events[i])) ==>
      ApplyAll(o, events).navData == o.navData && ApplyAll(o, events).configuration == o.configuration
    decreases |events|
  {
    if events != [] {
      var next := Apply(o, events[0]);
      var step := if events[0].ReadyStateChange? && events[0].readyState == Ready then 1 else 0;
      assert next.state == ReadinessAfter(k + step);
      assert forall i :: 0 <= i < |events[1..]| ==> events[1..][i] == events[i + 1];
      ReadinessCountsSignals(next, k + step, events[1..]);
    }
  }

  lemma WorkersReadyExactlyAfterThree(navData: Option<NavData>, configuration: Option<DroneConfiguration>,
                                      events: seq<Event>)
    requires forall i :: 0 <= i < |events| ==> !IsVideoSignal(events[i])
    ensures ApplyAll(Observed(Started, navData, configuration), events).state == WorkersReady
            <==> ReadyCount(events) >= 3
  {
    ReadinessCountsSignals(Observed(Started, navData, configuration), 0, events);
  }

  /** A video READY ends startup from any state; a video NOT_READY changes nothing. */
  lemma VideoReadyEndsStartup(o: Observed)
    ensures Apply(o, ReadyStateChange(VideoRetriever, Ready)) == o.(state := ControllerReady)
    ensures Apply(o, ReadyStateChange(VideoRetriever, NotReady)) == o
  {
  }

  /**
   * As written, a base worker reporting READY again after startup takes the
   * state from READY back to WORKERS_READY.
   */
  lemma LateWorkerReadyLeavesReady(o: Observed, w: Worker)
    requires o.state == ControllerReady && w != VideoRetriever
    ensures Apply(o, ReadyStateChange(w, Ready)).state == WorkersReady
  {
  }

  predicate CarriesConfiguration(events: seq<Event>)
  {
    exists i :: 0 <= i < |events| && events[i].ConfigurationReceived?
  }

  /** Callbacks other than configuration snapshots leave the stored configuration alone. */
  lemma {:induction false} OtherCallbacksKeepConfiguration(o: Observed, events: seq<Event>)
    requires !CarriesConfiguration(events)
    ensures ApplyAll(o, events).configuration == o.configuration
    decreases |events|
  {
    if events != [] {
      assert !CarriesConfiguration(events[1..]) by {
        forall i | 0 <= i < |events[1..]| ensures !events[1..][i].ConfigurationReceived? {
          assert events[1..][i] == events[i + 1];
        }
      }
      OtherCallbacksKeepConfiguration(Apply(o, events[0]), events[1..]);
    }
  }

  lemma {:induction false} ApplyAllAppend(o: Observed, a: seq<Event>, b: seq<Event>)
    ensures ApplyAll(o, a + b) == ApplyAll(ApplyAll(o, a), b)
    decreases |a|
  {
    if a != [] {
      assert a + b != [] && (a + b)[0] == a[0] && (a + b)[1..] == a[1..] + b;
      ApplyAllAppend(Apply(o, a[0]), a[1..], b);
    } else {
      assert a + b == b;
    }
  }

  /**
   * The stored configuration is the latest snapshot received: whatever came
   * before it, and whatever nav-data or readiness callbacks follow it.
   */
  lemma ConfigurationIsLatestSnapshot(o: Observed, before: seq<Event>, c: DroneConfiguration, after: seq<Event>)
    requires !CarriesConfiguration(after)
    ensures ApplyAll(o, before + [ConfigurationReceived(c)] + after).configuration == Some(c)
  {
    ApplyAllAppend(o, before + [ConfigurationReceived(c)], after);
    ApplyAllAppend(o, before, [ConfigurationReceived(c)]);
    OtherCallbacksKeepConfiguration(ApplyAll(o, before + [ConfigurationReceived(c)]), after);
  }

  /** Once a configuration has arrived, no callback takes it away again. */
  lemma {:induction false} ConfigurationIsNeverLost(o: Observed, events: seq<Event>)
    requires o.configuration.Some?
    ensures ApplyAll(o, events).configuration.Some?
    decreases |events|
  {
    if events != [] {
      ConfigurationIsNeverLost(Apply(o, events[0]), events[1..]);
    }
  }

  // ---------------------------------------------------------------------------
  // Waiting
  // ---------------------------------------------------------------------------

  datatype Condition = StateIs(target: ControllerState) | AckFlagIs(flag: bool) | HasConfiguration

  /** The loop conditions of `waitForState`, `waitForCommandAcknowledgeFlagToBe`, `waitForConfigurationData`. */
  predicate Holds(c: Condition, o: Observed)
  {
    match c
    case StateIs(target) => o.state == target
    case AckFlagIs(flag) => o.navData.Some? && o.navData.value.controlReceived == flag
    case HasConfiguration => o.configuration.Some?
  }

  /** With no nav data yet, no acknowledgement wait is satisfied. */
  lemma AckNeedsNavData(state: ControllerState, configuration: Option<DroneConfiguration>, flag: bool)
    ensures !Holds(AckFlagIs(flag), Observed(state, None, configuration))
  {
  }

  datatype WaitResult = WaitResult(ok: bool, observed: Observed, rest: seq<Tick>)

  /** A busy wait: check, and while the condition fails let one tick pass. */
  function Await(c: Condition, o: Observed, ticks: seq<Tick>): WaitResult
    decreases |ticks|
  {
    if Holds(c, o) then WaitResult(true, o, ticks)
    else if ticks == [] then WaitResult(false, o, [])
    else Await(c, ApplyAll(o, ticks[0]), ticks[1..])
  }

  /**
   * `r` is what a wait for `c` ends with when it stops after `n` ticks: it has
   * consumed those ticks, it observed the fields as they then are, it
   * succeeded exactly if `c` held there, and `c` held at no earlier boundary.
   * A failed wait has consumed the whole schedule.
   */
  predicate StopsAfter(c: Condition, o: Observed, ticks: seq<Tick>, r: WaitResult, n: nat)
  {
    && n <= |ticks| && r.rest == ticks[n..] && r.observed == After(o, ticks, n)
    && (r.ok <==> Holds(c, r.observed)) && (!r.ok ==> n == |ticks|)
    && forall m :: 0 <= m < n ==> !Holds(c, After(o, ticks, m))
  }

  /** A wait returns at the first tick boundary at which its condition holds. */
  lemma {:induction false} AwaitStopsAtFirstSatisfyingTick(c: Condition, o: Observed, ticks: seq<Tick>)
    ensures exists n :: StopsAfter(c, o, ticks, Await(c, o, ticks), n)
    decreases |ticks|
  {
    var r := Await(c, o, ticks);
    if Holds(c, o) {
      assert ticks[0..] == ticks;
      assert StopsAfter(c, o, ticks, r, 0);
    } else if ticks == [] {
      assert StopsAfter(c, o, ticks, r, 0);
    } else {
      var o1 := ApplyAll(o, ticks[0]);
      AwaitStopsAtFirstSatisfyingTick(c, o1, ticks[1..]);
      assert r == Await(c, o1, ticks[1..]);
      var n: nat :| StopsAfter(c, o1, ticks[1..], r, n);
      forall m | 0 <= m <= n ensures After(o1, ticks[1..], m) == After(o, ticks, m + 1) {
        AfterShift(o, ticks, m);
      }
      assert ticks[1..][n..] == ticks[n + 1..];
      forall m | 0 <= m < n + 1 ensures !Holds(c, After(o, ticks, m)) {
        if m > 0 {
          assert After(o1, ticks[1..], m - 1) == After(o, ticks, m);
        }
      }
      assert StopsAfter(c, o, ticks, r, n + 1);
    }
  }

  /** A wait succeeds exactly when it ends observing its condition; a failed one used up the schedule. */
  lemma {:induction false} AwaitOutcome(c: Condition, o: Observed, ticks: seq<Tick>)
    ensures var r := Await(c, o, ticks);
      (r.ok <==> Holds(c, r.observed)) && (!r.ok ==> r.rest == []) && |r.rest| <= |ticks|
    decreases |ticks|
  {
    if !Holds(c, o) && ticks != [] {
      AwaitOutcome(c, ApplyAll(o, ticks[0]), ticks[1..]);
    }
  }

  lemma {:induction false} AfterShift(o: Observed, ticks: seq<Tick>, m: nat)
    requires ticks != [] && m < |ticks|
    ensures After(ApplyAll(o, ticks[0]), ticks[1..], m) == After(o, ticks, m + 1)
  {
    if m > 0 {
      AfterShift(o, ticks, m - 1);
      assert ticks[1..][m - 1] == ticks[m];
    }
  }

  // ---------------------------------------------------------------------------
  // The acknowledged-command handshake and the login sequence
  // ---------------------------------------------------------------------------

  const ResetAck: Command := ControlDataCommand(ResetAckFlag)

  /**
   * The effect of a run of waits and sends: whether it completed, the fields
   * and schedule it leaves, the commands it sent and what the coordinator had
   * observed when it sent each of them.
   */
  datatype Run = Run(ok: bool, observed: Observed, rest: seq<Tick>,
                     sent: seq<Command>, sentWhile: seq<Observed>)

  /** `sendConfigCommandToBeAcknowledged`. */
  function Handshake(command: Command, o: Observed, ticks: seq<Tick>): Run
  {
    var w1 := Await(AckFlagIs(true), o, ticks);
    if !w1.ok then Run(false, w1.observed, w1.rest, [], [])
    else
      var w2 := Await(AckFlagIs(false), w1.observed, w1.rest);
      if !w2.ok then Run(false, w2.observed, w2.rest, [ResetAck], [w1.observed])
      else
        var w3 := Await(AckFlagIs(true), w2.observed, w2.rest);
        Run(w3.ok, w3.observed, w3.rest, [ResetAck, command], [w1.observed, w2.observed])
  }

  predicate AckSeen(o: Observed, flag: bool)
  {
    Holds(AckFlagIs(flag), o)
  }

  /**
   * One acknowledged send transmits the reset command, only once the bit is
   * seen true, then the target command, only once the bit is seen false, and
   * completes only once the bit is seen true again. If it gives up, it has
   * sent a prefix of those two commands.
   */
  lemma HandshakeResetsThenSends(command: Command, o: Observed, ticks: seq<Tick>)
    ensures var r := Handshake(command, o, ticks);
      && |r.sent| == |r.sentWhile| && r.sent <= [ResetAck, command]
      && (|r.sent| >= 1 ==> AckSeen(r.sentWhile[0], true))
      && (|r.sent| == 2 ==> AckSeen(r.sentWhile[1], false))
      && (r.ok <==> |r.sent| == 2 && AckSeen(r.observed, true))
      && (!r.ok ==> r.rest == [])
  {
    var w1 := Await(AckFlagIs(true), o, ticks);
    AwaitOutcome(AckFlagIs(true), o, ticks);
    if w1.ok {
      var w2 := Await(AckFlagIs(false), w1.observed, w1.rest);
      AwaitOutcome(AckFlagIs(false), w1.observed, w1.rest);
      if w2.ok {
        AwaitOutcome(AckFlagIs(true), w2.observed, w2.rest);
      }
    }
  }

  /** The commands the login sends through the handshake, in order. */
  function LoginCommands(s: LoginSettings): seq<Command>
  {
    [ LoginConfigValueCommand(s.sessionIdKey, s.sessionId),
      LoginConfigValueCommand(s.profileIdKey, s.profileId),
      LoginConfigValueCommand(s.applicationIdKey, s.applicationId),
      LoginConfigValueCommand("general:navdata_demo", "TRUE"),
      ControlDataCommand(GetControlData) ]
  }

  /** `b` carried on from where `a` stopped. */
  function Then(a: Run, b: Run): Run
  {
    Run(b.ok, b.observed, b.rest, a.sent + b.sent, a.sentWhile + b.sentWhile)
  }

  /** The next handshake, if the run so far has not given up. */
  function Step(r: Run, command: Command): Run
  {
    if !r.ok then r else Then(r, Handshake(command, r.observed, r.rest))
  }

  /** Handshakes for each command in turn, stopping at the first that gives up. */
  function Rounds(commands: seq<Command>, o: Observed, ticks: seq<Tick>): Run
    decreases |commands|
  {
    if commands == [] then Run(true, o, ticks, [], [])
    else Step(Rounds(commands[..|commands| - 1], o, ticks), commands[|commands| - 1])
  }

  lemma RoundsSnoc(commands: seq<Command>, k: nat, o: Observed, ticks: seq<Tick>)
    requires k < |commands| && Rounds(commands[..k], o, ticks).ok
    ensures var done := Rounds(commands[..k], o, ticks);
      Rounds(commands[..k + 1], o, ticks) == Then(done, Handshake(commands[k], done.observed, done.rest))
  {
    assert commands[..k + 1][..k] == commands[..k];
  }

  /** Once a round gives up, the later rounds do nothing. */
  lemma {:induction false} LoginGivesUp(commands: seq<Command>, k: nat, o: Observed, ticks: seq<Tick>)
    requires k <= |commands| && !Rounds(commands[..k], o, ticks).ok
    ensures Rounds(commands, o, ticks) == Rounds(commands[..k], o, ticks)
    decreases |commands| - k
  {
    if k < |commands| {
      assert commands[..k + 1][..k] == commands[..k];
      LoginGivesUp(commands, k + 1, o, ticks);
    } else {
      assert commands[..k] == commands;
    }
  }

  /** `sent` alternates reset and target, target `k` being `commands[k]`, each sent at the right bit. */
  predicate Alternates(commands: seq<Command>, sent: seq<Command>, sentWhile: seq<Observed>)
  {
    && |sent| == |sentWhile| && |sent| <= 2 * |commands|
    && (forall i :: 0 <= i < |sent| && i % 2 == 0 ==> sent[i] == ResetAck && AckSeen(sentWhile[i], true))
    && (forall i :: 0 <= i < |sent| && i % 2 == 1 ==> sent[i] == commands[i / 2] && AckSeen(sentWhile[i], false))
  }

  /**
   * A sequence of handshakes sends reset and target alternately, each target
   * in the given order; it completes exactly when all of them were sent and
   * acknowledged, and otherwise it has used up the schedule.
   */
  lemma {:induction false} RoundsAlternate(commands: seq<Command>, o: Observed, ticks: seq<Tick>)
    ensures var r := Rounds(commands, o, ticks);
      && Alternates(commands, r.sent, r.sentWhile)
      && (r.ok ==> |r.sent| == 2 * |commands|)
      && (r.ok && commands != [] ==> AckSeen(r.observed, true))
      && (!r.ok ==> r.rest == [])
    decreases |commands|
  {
    if commands != [] {
      var init := commands[..|commands| - 1];
      var last := commands[|commands| - 1];
      var p := Rounds(init, o, ticks);
      RoundsAlternate(init, o, ticks);
      var r := Rounds(commands, o, ticks);
      assert r == Step(p, last);
      forall i | 0 <= i < |p.sent| ensures commands[i / 2] == init[i / 2] {
      }
      if p.ok {
        var h := Handshake(last, p.observed, p.rest);
        HandshakeResetsThenSends(last, p.observed, p.rest);
        assert r == Then(p, h);
        forall i | 0 <= i < |r.sent| && i % 2 == 0
          ensures r.sent[i] == ResetAck && AckSeen(r.sentWhile[i], true)
        {
          if i >= |p.sent| {
            assert r.sent[i] == h.sent[i - |p.sent|] && r.sentWhile[i] == h.sentWhile[i - |p.sent|];
          } else {
            assert r.sent[i] == p.sent[i] && r.sentWhile[i] == p.sentWhile[i];
          }
        }
        forall i | 0 <= i < |r.sent| && i % 2 == 1
          ensures r.sent[i] == commands[i / 2] && AckSeen(r.sentWhile[i], false)
        {
          if i >= |p.sent| {
            assert r.sent[i] == h.sent[i - |p.sent|] && r.sentWhile[i] == h.sentWhile[i - |p.sent|];
            assert i / 2 == |init|;
          } else {
            assert r.sent[i] == p.sent[i] && r.sentWhile[i] == p.sentWhile[i];
          }
        }
      }
    }
  }

  /** `loginAndDetermineConfiguration`: the five handshakes, then the wait for a configuration. */
  function Login(s: LoginSettings, o: Observed, ticks: seq<Tick>): Run
  {
    var r := Rounds(LoginCommands(s), o, ticks);
    if !r.ok then r
    else
      var w := Await(HasConfiguration, r.observed, r.rest);
      Run(w.ok, w.observed, w.rest, r.sent, r.sentWhile)
  }

  /**
   * A completed login has sent exactly the ten commands, reset before each of
   * session id, profile id, application id, the demo-mode flag and the
   * control-data request, and holds a configuration.
   */
  lemma LoginSendsTenCommands(s: LoginSettings, o: Observed, ticks: seq<Tick>)
    ensures var r := Login(s, o, ticks);
      && Alternates(LoginCommands(s), r.sent, r.sentWhile)
      && (r.ok ==> |r.sent| == 10 && r.observed.configuration.Some?)
  {
    var r := Rounds(LoginCommands(s), o, ticks);
    RoundsAlternate(LoginCommands(s), o, ticks);
    if r.ok {
      AwaitOutcome(HasConfiguration, r.observed, r.rest);
    }
  }

  datatype StartResult = StartResult(run: Run, lifecycle: seq<WorkerAction>)

  const BaseWorkersStarted: seq<WorkerAction> :=
    [StartWorker(CommandSender), StartWorker(ConfigurationDataRetriever), StartWorker(NavigationDataRetriever)]

  /** `start`: base workers, wait for WORKERS_READY, login, video, wait for READY. */
  function StartSequence(s: LoginSettings, o: Observed, ticks: seq<Tick>): StartResult
  {
    var w := Await(StateIs(WorkersReady), o, ticks);
    if !w.ok then StartResult(Run(false, w.observed, w.rest, [], []), BaseWorkersStarted)
    else
      var l := Login(s, w.observed, w.rest);
      if !l.ok then StartResult(l, BaseWorkersStarted)
      else
        var v := Await(StateIs(ControllerReady), l.observed, l.rest);
        StartResult(Run(v.ok, v.observed, v.rest, l.sent, l.sentWhile),
                    BaseWorkersStarted + [StartWorker(VideoRetriever)])
  }

  /**
   * Startup starts the command sender, the configuration retriever and the
   * navigation retriever in that order; it starts the video retriever only
   * after a completed login, and completes only in state READY, with the ten
   * login commands sent and a configuration held.
   */
  lemma StartOrder(s: LoginSettings, o: Observed, ticks: seq<Tick>)
    ensures var r := StartSequence(s, o, ticks);
      && r.lifecycle[..3] == BaseWorkersStarted
      && (StartWorker(VideoRetriever) in r.lifecycle ==> |r.run.sent| == 10)
      && (r.run.ok ==> r.run.observed.state == ControllerReady &&
                       r.lifecycle == BaseWorkersStarted + [StartWorker(VideoRetriever)] &&
                       |r.run.sent| == 10)
      && Alternates(LoginCommands(s), r.run.sent, r.run.sentWhile)
  {
    var w := Await(StateIs(WorkersReady), o, ticks);
    AwaitOutcome(StateIs(WorkersReady), o, ticks);
    if w.ok {
      LoginSendsTenCommands(s, w.observed, w.rest);
      var l := Login(s, w.observed, w.rest);
      if l.ok {
        AwaitOutcome(StateIs(ControllerReady), l.observed, l.rest);
      }
    }
  }

  const WorkersStopped: seq<WorkerAction> :=
    [StopWorker(CommandSender), StopWorker(NavigationDataRetriever),
     StopWorker(ConfigurationDataRetriever), StopWorker(VideoRetriever)]

  // ---------------------------------------------------------------------------
  // The coordinator object
  // ---------------------------------------------------------------------------

  class DroneCoordinator {
    const settings: LoginSettings
    const videoRetriever: VideoRetrieverVariant
    var currentState: ControllerState
    var currentNavData: Option<NavData>
    var droneConfiguration: Option<DroneConfiguration>
    /** The callbacks still to come, one tick per WAIT_PERIOD sleep. */
    var ticks: seq<Tick>
    /** Everything handed to the command sender, in order. */
    var sent: seq<Command>
    /** What the coordinator had observed when it sent each command. */
    ghost var sentWhile: seq<Observed>
    /** Worker starts and stops, in order. */
    var lifecycle: seq<WorkerAction>
    /** Milliseconds spent in `sleep(WAIT_PERIOD)` so far. */
    var waited: nat

    function Observation(): Observed
      reads this
    {
      Observed(currentState, currentNavData, droneConfiguration)
    }

    /** The fields are where the run `r`, begun with `s0` and `w0` sent, has left them. */
    ghost predicate Reached(r: Run, s0: seq<Command>, w0: seq<Observed>)
      reads this
    {
      Observation() == r.observed && ticks == r.rest && sent == s0 + r.sent && sentWhile == w0 + r.sentWhile
    }

    constructor (settings: LoginSettings, version: DroneVersion, schedule: seq<Tick>)
      ensures this.settings == settings
      ensures videoRetriever == (if version == ArDrone1 then ArDroneOneVideoRetriever else ArDroneTwoVideoRetriever)
      ensures currentState == Started && currentNavData == None && droneConfiguration == None
      ensures ticks == schedule && sent == [] && sentWhile == [] && lifecycle == [] && waited == 0
    {
      this.settings := settings;
      videoRetriever := if version == ArDrone1 then ArDroneOneVideoRetriever else ArDroneTwoVideoRetriever;
      currentState := Started;
      currentNavData := None;
      droneConfiguration := None;
      ticks := schedule;
      sent := [];
      sentWhile := [];
      lifecycle := [];
      waited := 0;
    }

    method WorkerReady(readyState: ReadyState)
      modifies this`currentState
      ensures currentState == NextOnWorkerReady(old(currentState), readyState)
    {
      if readyState == Ready {
        currentState := if currentState == Started then CommandOneRetrieverReady
          else if currentState == CommandOneRetrieverReady then CommandTwoRetrieversReady
          else WorkersReady;
      }
    }

    method VideoRetrieverReady(readyState: ReadyState)
      modifies this`currentState
      ensures currentState == NextOnVideoReady(old(currentState), readyState)
    {
      if readyState == Ready {
        currentState := ControllerReady;
      }
    }

    method NavDataReceived(navData: NavData)
      modifies this`currentNavData
      ensures currentNavData == Some(navData)
    {
      currentNavData := Some(navData);
    }

    method DroneConfigurationReceived(configuration: DroneConfiguration)
      modifies this`droneConfiguration
      ensures droneConfiguration == Some(configuration)
    {
      droneConfiguration := Some(configuration);
    }

    /** The listener bodies of `addListeners`. */
    method OnEvent(e: Event)
      modifies this`currentState, this`currentNavData, this`droneConfiguration
      ensures Observation() == Apply(old(Observation()), e)
    {
      match e
      case ReadyStateChange(worker, readyState) =>
        if worker == VideoRetriever {
          VideoRetrieverReady(readyState);
        } else {
          WorkerReady(readyState);
        }
      case NavDataReceived(navData) => NavDataReceived(navData);
      case ConfigurationReceived(configuration) => DroneConfigurationReceived(configuration);
    }

    /** `sleep(WAIT_PERIOD)`: the callbacks of one tick run. */
    method Sleep()
      requires ticks != []
      modifies this`currentState, this`currentNavData, this`droneConfiguration, this`ticks, this`waited
      ensures Observation() == ApplyAll(old(Observation()), old(ticks)[0])
      ensures ticks == old(ticks)[1..]
      ensures waited == old(waited) + WAIT_PERIOD
    {
      var batch := ticks[0];
      ticks := ticks[1..];
      waited := waited + WAIT_PERIOD;
      var i := 0;
      while i < |batch|
        invariant 0 <= i <= |batch|
        invariant ticks == old(ticks)[1..] && waited == old(waited) + WAIT_PERIOD
        invariant ApplyAll(old(Observation()), batch) == ApplyAll(Observation(), batch[i..])
      {
        OnEvent(batch[i]);
        assert batch[i..][1..] == batch[i + 1..];
        i := i + 1;
      }
    }

    method WaitForState(state: ControllerState) returns (ok: bool)
      modifies this`currentState, this`currentNavData, this`droneConfiguration, this`ticks, this`waited
      ensures WaitResult(ok, Observation(), ticks) == Await(StateIs(state), old(Observation()), old(ticks))
      ensures waited + WAIT_PERIOD * |ticks| == old(waited) + WAIT_PERIOD * |old(ticks)|
    {
      while currentState != state
        invariant Await(StateIs(state), Observation(), ticks) == Await(StateIs(state), old(Observation()), old(ticks))
        invariant waited + WAIT_PERIOD * |ticks| == old(waited) + WAIT_PERIOD * |old(ticks)|
        decreases |ticks|
      {
        if ticks == [] {
          return false;
        }
        Sleep();
      }
      return true;
    }

    method WaitForCommandAcknowledgeFlagToBe(value: bool) returns (ok: bool)
      modifies this`currentState, this`currentNavData, this`droneConfiguration, this`ticks, this`waited
      ensures WaitResult(ok, Observation(), ticks) == Await(AckFlagIs(value), old(Observation()), old(ticks))
      ensures waited + WAIT_PERIOD * |ticks| == old(waited) + WAIT_PERIOD * |old(ticks)|
    {
      while currentNavData == None || currentNavData.value.controlReceived != value
        invariant Await(AckFlagIs(value), Observation(), ticks) == Await(AckFlagIs(value), old(Observation()), old(ticks))
        invariant waited + WAIT_PERIOD * |ticks| == old(waited) + WAIT_PERIOD * |old(ticks)|
        decreases |ticks|
      {
        if ticks == [] {
          return false;
        }
        Sleep();
      }
      return true;
    }

    method WaitForConfigurationData() returns (ok: bool)
      modifies this`currentState, this`currentNavData, this`droneConfiguration, this`ticks, this`waited
      ensures WaitResult(ok, Observation(), ticks) == Await(HasConfiguration, old(Observation()), old(ticks))
      ensures waited + WAIT_PERIOD * |ticks| == old(waited) + WAIT_PERIOD * |old(ticks)|
    {
      while droneConfiguration == None
        invariant Await(HasConfiguration, Observation(), ticks) == Await(HasConfiguration, old(Observation()), old(ticks))
        invariant waited + WAIT_PERIOD * |ticks| == old(waited) + WAIT_PERIOD * |old(ticks)|
        decreases |ticks|
      {
        if ticks == [] {
          return false;
        }
        Sleep();
      }
      return true;
    }

    /** `commandSender.sendCommand`. */
    method SendCommand(command: Command)
      modifies this`sent, this`sentWhile
      ensures sent == old(sent) + [command] && sentWhile == old(sentWhile) + [Observation()]
    {
      sent := sent + [command];
      sentWhile := sentWhile + [Observation()];
    }

    method SendResetControlDataAcknowledgementFlagCommand()
      modifies this`sent, this`sentWhile
      ensures sent == old(sent) + [ResetAck] && sentWhile == old(sentWhile) + [Observation()]
    {
      SendCommand(ControlDataCommand(ResetAckFlag));
    }

    method SendConfigCommandToBeAcknowledged(command: Command) returns (ok: bool)
      modifies this`currentState, this`currentNavData, this`droneConfiguration, this`ticks, this`waited,
               this`sent, this`sentWhile
      ensures var r := Handshake(command, old(Observation()), old(ticks));
        && ok == r.ok && Observation() == r.observed && ticks == r.rest
        && sent == old(sent) + r.sent && sentWhile == old(sentWhile) + r.sentWhile
      ensures waited + WAIT_PERIOD * |ticks| == old(waited) + WAIT_PERIOD * |old(ticks)|
    {
      ok := WaitForCommandAcknowledgeFlagToBe(true);
      if !ok {
        return;
      }
      SendResetControlDataAcknowledgementFlagCommand();
      ok := WaitForCommandAcknowledgeFlagToBe(false);
      if !ok {
        return;
      }
      SendCommand(command);
      ok := WaitForCommandAcknowledgeFlagToBe(true);
    }

    method LoginAndDetermineConfiguration() returns (ok: bool)
      modifies this`currentState, this`currentNavData, this`droneConfiguration, this`ticks, this`waited,
               this`sent, this`sentWhile
      ensures var r := Login(settings, old(Observation()), old(ticks));
        && ok == r.ok && Observation() == r.observed && ticks == r.rest
        && sent == old(sent) + r.sent && sentWhile == old(sentWhile) + r.sentWhile
      ensures waited + WAIT_PERIOD * |ticks| == old(waited) + WAIT_PERIOD * |old(ticks)|
    {
      // The five acknowledged sends, in the order of LoginCommands.
      var commands := LoginCommands(settings);
      ghost var o0, t0, s0, w0, waited0 := Observation(), ticks, sent, sentWhile, waited;
      assert commands[..0] == [];
      var k := 0;
      while k < |commands|
        invariant 0 <= k <= |commands|
        invariant Rounds(commands[..k], o0, t0).ok && Reached(Rounds(commands[..k], o0, t0), s0, w0)
        invariant waited + WAIT_PERIOD * |ticks| == waited0 + WAIT_PERIOD * |t0|
      {
        ghost var done := Rounds(commands[..k], o0, t0);
        ok := SendConfigCommandToBeAcknowledged(commands[k]);
        RoundsSnoc(commands, k, o0, t0);
        assert Reached(Then(done, Handshake(commands[k], done.observed, done.rest)), s0, w0);
        if !ok {
          LoginGivesUp(commands, k + 1, o0, t0);
          return;
        }
        k := k + 1;
      }
      assert commands[..k] == commands;
      ok := WaitForConfigurationData();
    }

    method Start() returns (ok: bool)
      modifies this`currentState, this`currentNavData, this`droneConfiguration, this`ticks, this`waited,
               this`sent, this`sentWhile, this`lifecycle
      ensures var r := StartSequence(settings, old(Observation()), old(ticks));
        && ok == r.run.ok && Observation() == r.run.observed && ticks == r.run.rest
        && sent == old(sent) + r.run.sent && sentWhile == old(sentWhile) + r.run.sentWhile
        && lifecycle == old(lifecycle) + r.lifecycle
      ensures waited + WAIT_PERIOD * |ticks| == old(waited) + WAIT_PERIOD * |old(ticks)|
    {
      lifecycle := lifecycle + [StartWorker(CommandSender)];
      lifecycle := lifecycle + [StartWorker(ConfigurationDataRetriever)];
      lifecycle := lifecycle + [StartWorker(NavigationDataRetriever)];

      ok := WaitForState(WorkersReady);
      if !ok {
        return;
      }
      ok := LoginAndDetermineConfiguration();
      if !ok {
        return;
      }
      lifecycle := lifecycle + [StartWorker(VideoRetriever)];
      ok := WaitForState(ControllerReady);
    }

    method Stop()
      modifies this`lifecycle
      ensures lifecycle == old(lifecycle) + WorkersStopped
    {
      lifecycle := lifecycle + [StopWorker(CommandSender)];
      lifecycle := lifecycle + [StopWorker(NavigationDataRetriever)];
      lifecycle := lifecycle + [StopWorker(ConfigurationDataRetriever)];
      lifecycle := lifecycle + [StopWorker(VideoRetriever)];
    }
  }
}
