/**
 * The input controller of the gesture client: two flags, `ready` and
 * `flying`, guard take-off and landing, and the race timer is started on a
 * take-off and stopped on a landing or an emergency. The calls into the drone
 * controller are commented out in this client, so the intent handlers other
 * than take-off and landing change nothing.
 */
module IntelControl {
  import opened DroneTypes

  /** The UI actions the controller handles; every other action is `OtherAction`. */
  datatype UIAction =
    | TakeOffAction
    | LandAction
    | FlatTrimAction
    | EmergencyAction
    | SwitchCameraAction
    | PlayLedAnimationAction
    | PlayFlightAnimationAction
    | OtherAction

  datatype GestureType = Circle | OtherGesture

  datatype TimerAction = TimerStarted | TimerStopped

  /** The controller's flags and the race-timer calls made so far. */
  datatype Controls = Controls(ready: bool, flying: bool, timer: seq<TimerAction>)

  const Initial: Controls := Controls(true, false, [])

  function AfterTakeOff(c: Controls): Controls
  {
    if c.ready && !c.flying then Controls(c.ready, true, c.timer + [TimerStarted]) else c
  }

  function AfterLand(c: Controls): Controls
  {
    if c.ready && c.flying then Controls(c.ready, false, c.timer + [TimerStopped]) else c
  }

  function AfterAction(c: Controls, action: UIAction): Controls
  {
    match action
    case TakeOffAction => AfterTakeOff(c)
    case LandAction => AfterLand(c)
    case _ => c  // flat trim, emergency, camera, LED and flight animation, unlisted actions
  }

  function AfterReadyStateChange(c: Controls, readyState: ReadyState): Controls
  {
    c.(ready := readyState == Ready)
  }

  function AfterNavData(c: Controls, navData: NavData): Controls
  {
    Controls(c.ready, navData.flying, if navData.emergency then c.timer + [TimerStopped] else c.timer)
  }

  function AfterGesture(c: Controls, gesture: GestureType): Controls
  {
    if gesture == Circle then AfterTakeOff(c) else c
  }

  /** A take-off needs `ready` and not `flying`; it starts the timer once and sets `flying`. */
  lemma TakeOffRule(c: Controls)
    ensures var t := AfterTakeOff(c);
      && t.ready == c.ready
      && (c.ready && !c.flying ==> t.flying && t.timer == c.timer + [TimerStarted])
      && (!(c.ready && !c.flying) ==> t == c)
      && AfterTakeOff(t) == t
  {
  }

  /** Landing reverses a take-off: the flags come back, and the timer was started then stopped. */
  lemma LandUndoesTakeOff(c: Controls)
    requires c.ready && !c.flying
    ensures AfterLand(AfterTakeOff(c)) == Controls(c.ready, c.flying, c.timer + [TimerStarted, TimerStopped])
  {
  }

  /** A landing needs `ready` and `flying`; a second one in a row changes nothing. */
  lemma LandRule(c: Controls)
    ensures var l := AfterLand(c);
      && l.ready == c.ready
      && (c.ready && c.flying ==> !l.flying && l.timer == c.timer + [TimerStopped])
      && (!(c.ready && c.flying) ==> l == c)
      && AfterLand(l) == l
  {
  }

  /** A circle is a take-off; any other gesture does nothing. */
  lemma CircleIsTakeOff(c: Controls, gesture: GestureType)
    ensures AfterGesture(c, gesture) == (if gesture == Circle then AfterAction(c, TakeOffAction) else c)
  {
  }

  /** The intents whose drone calls are commented out leave flags and timer alone. */
  lemma InertActions(c: Controls, action: UIAction)
    requires action != TakeOffAction && action != LandAction
    ensures AfterAction(c, action) == c
  {
  }

  /** Until a READY arrives again, NOT_READY blocks both take-off and landing. */
  lemma NotReadyBlocksFlight(c: Controls, actions: seq<UIAction>)
    ensures var n := AfterReadyStateChange(c, NotReady);
      !n.ready && Actions(n, actions) == n
  {
    NotReadyIsInert(AfterReadyStateChange(c, NotReady), actions);
  }

  lemma {:induction false} NotReadyIsInert(c: Controls, actions: seq<UIAction>)
    requires !c.ready
    ensures Actions(c, actions) == c
    decreases |actions|
  {
    if actions != [] {
      NotReadyIsInert(AfterAction(c, actions[0]), actions[1..]);
    }
  }

  function Actions(c: Controls, actions: seq<UIAction>): Controls
    decreases |actions|
  {
    if actions == [] then c else Actions(AfterAction(c, actions[0]), actions[1..])
  }

  /** The inputs that reach the controller other than telemetry. */
  datatype Input = ActionInput(action: UIAction) | GestureInput(gesture: GestureType) | ReadyInput(readyState: ReadyState)

  function Step(c: Controls, input: Input): Controls
  {
    match input
    case ActionInput(action) => AfterAction(c, action)
    case GestureInput(gesture) => AfterGesture(c, gesture)
    case ReadyInput(readyState) => AfterReadyStateChange(c, readyState)
  }

  function Inputs(c: Controls, inputs: seq<Input>): Controls
    decreases |inputs|
  {
    if inputs == [] then c else Inputs(Step(c, inputs[0]), inputs[1..])
  }

  /** The timer calls alternate start, stop, start, … */
  predicate Alternating(timer: seq<TimerAction>)
  {
    forall i :: 0 <= i < |timer| ==> timer[i] == (if i % 2 == 0 then TimerStarted else TimerStopped)
  }

  /** The timer runs exactly while the controller believes it is flying. */
  predicate TimerTracksFlight(c: Controls)
  {
    Alternating(c.timer) && (c.flying <==> |c.timer| % 2 == 1)
  }

  /**
   * Without telemetry, that is over UI actions, gestures and readiness
   * changes only, the race timer is started and stopped alternately and is
   * running exactly while `flying` is set.
   */
  lemma {:induction false} TimerAlternatesWithoutTelemetry(c: Controls, inputs: seq<Input>)
    requires TimerTracksFlight(c)
    ensures TimerTracksFlight(Inputs(c, inputs))
    decreases |inputs|
  {
    if inputs != [] {
      var next := Step(c, inputs[0]);
      assert TimerTracksFlight(next) by {
        if next.timer != c.timer {
          assert |next.timer| == |c.timer| + 1;
          forall i | 0 <= i < |next.timer|
            ensures next.timer[i] == (if i % 2 == 0 then TimerStarted else TimerStopped)
          {
            if i < |c.timer| {
              assert next.timer[i] == c.timer[i];
            }
          }
        }
      }
      TimerAlternatesWithoutTelemetry(next, inputs[1..]);
    }
  }

  lemma InitialTracksFlight()
    ensures TimerTracksFlight(Initial) && Initial.ready && !Initial.flying
  {
  }

  /**
   * Telemetry overrides the belief: `flying` follows the packet's flag, and
   * an emergency packet stops the timer even when it is not running.
   */
  lemma NavDataRule(c: Controls, navData: NavData)
    ensures var n := AfterNavData(c, navData);
      && n.ready == c.ready && n.flying == navData.flying
      && n.timer == c.timer + (if navData.emergency then [TimerStopped] else [])
  {
  }

  /** An emergency packet on the ground makes the timer calls stop twice in a row. */
  lemma EmergencyBreaksAlternation()
    ensures var c := AfterNavData(AfterLand(AfterTakeOff(Initial)), NavData(false, true, false));
      TimerTracksFlight(AfterLand(AfterTakeOff(Initial))) && !Alternating(c.timer)
  {
    var c := AfterNavData(AfterLand(AfterTakeOff(Initial)), NavData(false, true, false));
    assert c.timer == [TimerStarted, TimerStopped, TimerStopped];
    assert c.timer[2] != TimerStarted;
  }

  class DroneInputController {
    var ready: bool
    var flying: bool
    /** The race-timer start and stop calls, in order. */
    var timer: seq<TimerAction>

    function Snapshot(): Controls
      reads this
    {
      Controls(ready, flying, timer)
    }

    constructor ()
      ensures Snapshot() == Initial
    {
      flying := false;
      ready := true;
      timer := [];
    }

    method TakeOff()
      modifies this
      ensures Snapshot() == AfterTakeOff(old(Snapshot()))
    {
      if ready && !flying {
        timer := timer + [TimerStarted];
        flying := true;
      }
    }

    method Land()
      modifies this
      ensures Snapshot() == AfterLand(old(Snapshot()))
    {
      if ready && flying {
        timer := timer + [TimerStopped];
        flying := false;
      }
    }

    /** Flat trim, emergency, camera switch, LED and flight animations: the drone calls are disabled. */
    method FlatTrim()
      ensures Snapshot() == old(Snapshot())
    {
    }

    method Emergency()
      ensures Snapshot() == old(Snapshot())
    {
    }

    method SwitchCamera()
      ensures Snapshot() == old(Snapshot())
    {
    }

    method PlayLedAnimation()
      ensures Snapshot() == old(Snapshot())
    {
    }

    method PlayFlightAnimation()
      ensures Snapshot() == old(Snapshot())
    {
    }

    method Move(roll: real, pitch: real, yaw: real, heightDelta: real)
      ensures Snapshot() == old(Snapshot())
    {
    }

    method OnAction(action: UIAction)
      modifies this
      ensures Snapshot() == AfterAction(old(Snapshot()), action)
    {
      match action
      case TakeOffAction => TakeOff();
      case LandAction => Land();
      case FlatTrimAction => FlatTrim();
      case EmergencyAction => Emergency();
      case SwitchCameraAction => SwitchCamera();
      case PlayLedAnimationAction => PlayLedAnimation();
      case PlayFlightAnimationAction => PlayFlightAnimation();
      case OtherAction =>
    }

    method OnNavData(navData: NavData)
      modifies this
      ensures Snapshot() == AfterNavData(old(Snapshot()), navData)
    {
      flying := navData.flying;
      if navData.emergency {
        timer := timer + [TimerStopped];
      }
    }

    method OnReadyStateChange(readyState: ReadyState)
      modifies this
      ensures Snapshot() == AfterReadyStateChange(old(Snapshot()), readyState)
    {
      if readyState == Ready {
        ready := true;
      } else if readyState == NotReady {
        ready := false;
      }
    }

    method OnGesture(gesture: GestureType)
      modifies this
      ensures Snapshot() == AfterGesture(old(Snapshot()), gesture)
    {
      match gesture
      case Circle => TakeOff();
      case OtherGesture =>
    }
  }
}
