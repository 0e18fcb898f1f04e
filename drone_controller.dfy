/**
 * The public façade of the drone client. Every intent but the LED animation
 * is gated on the coordinator being READY; an allowed intent hands exactly
 * one command, built from its arguments, either straight to the command
 * sender or (configuration commands) to the single-thread executor.
 *
 * The coordinator behind the façade is a cell holding its state, its drone
 * version and its configuration; its `start(Config)` is code this model does
 * not see, so the state it leaves behind is a parameter of `Start`. The
 * executor runs each submitted task at once, so a submission is recorded
 * as the command the task hands to the command sender.
 */
module Controller {
  import opened DroneTypes
  import Coordinator

  /** The session's checksums, supplied by the caller of `start`. */
  datatype Config = Config(sessionChecksum: string, profileChecksum: string, applicationChecksum: string)

  /** Why `checkState` (or a null `config`) stops an operation. */
  datatype Failure =
    | NotInitialized      // "The drone controller is not yet fully initialized"
    | AlreadyInitialized  // "The drone controller has already been initialized"
    | NullConfig          // `config` dereferenced before any `start`

  datatype Result<T> = Ok(value: T) | Failed(failure: Failure)

  datatype Outcome = Done | Refused(failure: Failure)

  /** A command handed to the command sender: directly, or by an executor task as a configuration command. */
  datatype Submission = Sent(command: Command) | ConfigSent(command: Command)

  datatype Intent =
    | TakeOffIntent
    | LandIntent
    | EmergencyIntent
    | FlatTrimIntent
    | MoveIntent(roll: real, pitch: real, yaw: real, gaz: real)
    | SetConfigurationValueIntent(key: string, value: string)
    | SwitchCameraIntent(camera: string)
    | PlayLedAnimationIntent

  /** The intents that read the stored `config`. */
  predicate UsesConfig(intent: Intent)
  {
    intent.SetConfigurationValueIntent? || intent.SwitchCameraIntent? || intent.PlayLedAnimationIntent?
  }

  /** The one intent sent without `checkInitializationState`. */
  predicate Ungated(intent: Intent)
  {
    intent.PlayLedAnimationIntent?
  }

  /** What an intent submits, or why it fails, given the coordinator state and the stored config. */
  function Dispatch(state: ControllerState, config: Option<Config>, intent: Intent): (r: Result<Submission>)
    ensures r.Ok? <==> (Ungated(intent) || state == ControllerReady) && (UsesConfig(intent) ==> config.Some?)
    ensures r.Failed? && !Ungated(intent) && state != ControllerReady ==> r.failure == NotInitialized
    ensures r.Failed? && (Ungated(intent) || state == ControllerReady) ==> r.failure == NullConfig
    ensures r.Ok? ==> (r.value.ConfigSent? <==> intent.SetConfigurationValueIntent? || intent.SwitchCameraIntent?)
  {
    if !Ungated(intent) && state != ControllerReady then Failed(NotInitialized)
    else match intent
      case TakeOffIntent => Ok(Sent(FlightModeCommand(TakeOff)))
      case LandIntent => Ok(Sent(FlightModeCommand(Land)))
      case EmergencyIntent => Ok(Sent(FlightModeCommand(Emergency)))
      case FlatTrimIntent => Ok(Sent(FlatTrimCommand))
      case MoveIntent(roll, pitch, yaw, gaz) => Ok(Sent(FlightMoveCommand(roll, pitch, yaw, gaz)))
      case SetConfigurationValueIntent(key, value) =>
        if config.None? then Failed(NullConfig)
        else
          var c := config.value;
          Ok(ConfigSent(SetConfigValueCommand(c.sessionChecksum, c.profileChecksum, c.applicationChecksum, key, value)))
      case SwitchCameraIntent(camera) =>
        if config.None? then Failed(NullConfig)
        else
          var c := config.value;
          Ok(ConfigSent(SwitchCameraCommand(c.sessionChecksum, c.profileChecksum, c.applicationChecksum, camera)))
      case PlayLedAnimationIntent =>
        if config.None? then Failed(NullConfig)
        else
          var c := config.value;
          Ok(Sent(PlayLedAnimationCommand(c.sessionChecksum, c.profileChecksum, c.applicationChecksum)))
  }

  /** Reads the intent back from the submission: the inverse of Dispatch. */
  function IntentOf(s: Submission): Option<Intent>
  {
    match s
    case Sent(FlightModeCommand(TakeOff)) => Some(TakeOffIntent)
    case Sent(FlightModeCommand(Land)) => Some(LandIntent)
    case Sent(FlightModeCommand(Emergency)) => Some(EmergencyIntent)
    case Sent(FlatTrimCommand) => Some(FlatTrimIntent)
    case Sent(FlightMoveCommand(roll, pitch, yaw, gaz)) => Some(MoveIntent(roll, pitch, yaw, gaz))
    case ConfigSent(SetConfigValueCommand(_, _, _, key, value)) => Some(SetConfigurationValueIntent(key, value))
    case ConfigSent(SwitchCameraCommand(_, _, _, camera)) => Some(SwitchCameraIntent(camera))
    case Sent(PlayLedAnimationCommand(_, _, _)) => Some(PlayLedAnimationIntent)
    case _ => None
  }

  /** The checksums a submitted command carries, if it is a checksummed one. */
  function ChecksumsOf(s: Submission): Option<Config>
  {
    match s.command
    case SetConfigValueCommand(sc, pc, ac, _, _) => Some(Config(sc, pc, ac))
    case SwitchCameraCommand(sc, pc, ac, _) => Some(Config(sc, pc, ac))
    case PlayLedAnimationCommand(sc, pc, ac) => Some(Config(sc, pc, ac))
    case _ => None
  }

  /**
   * Each allowed intent submits one command that carries its arguments
   * unchanged, so the intent can be read back from it; the commands built
   * from the config carry exactly the stored checksums.
   */
  lemma DispatchCarriesArguments(state: ControllerState, config: Option<Config>, intent: Intent)
    requires Dispatch(state, config, intent).Ok?
    ensures IntentOf(Dispatch(state, config, intent).value) == Some(intent)
    ensures ChecksumsOf(Dispatch(state, config, intent).value) == (if UsesConfig(intent) then config else None)
  {
  }

  /** Two intents never submit the same command. */
  lemma DispatchInjective(state: ControllerState, config: Option<Config>, i1: Intent, i2: Intent)
    requires Dispatch(state, config, i1).Ok? && Dispatch(state, config, i2).Ok?
    requires Dispatch(state, config, i1).value == Dispatch(state, config, i2).value
    ensures i1 == i2
  {
    DispatchCarriesArguments(state, config, i1);
    DispatchCarriesArguments(state, config, i2);
  }

  /** The LED animation is sent in any coordinator state, READY or not. */
  lemma LedAnimationIgnoresState(s1: ControllerState, s2: ControllerState, config: Option<Config>)
    ensures Dispatch(s1, config, PlayLedAnimationIntent) == Dispatch(s2, config, PlayLedAnimationIntent)
  {
  }

  function OutcomeOf<T>(r: Result<T>): Outcome
  {
    if r.Ok? then Done else Refused(r.failure)
  }

  function SubmittedBy(r: Result<Submission>): seq<Submission>
  {
    if r.Ok? then [r.value] else []
  }

  /**
   * What the façade does outside its own fields, in one log so that the
   * order of a coordinator call and a ready-state signal is recorded:
   * a call on the coordinator, or a READY / NOT_READY signal emitted by
   * the façade's ready-state component.
   */
  datatype Effect = StartCoordinator(config: Config) | StopCoordinator | Emitted(state: ReadyState)

  datatype VideoRetriever = VideoRetrieverH264 | VideoRetrieverP264

  datatype RegistryCall =
    | ReadyListenerAdded(listener: Listener)
    | NavDataListenerAdded(listener: Listener)
    | NavDataListenerRemoved(listener: Listener)
    | VideoDataListenerAdded(retriever: VideoRetriever, listener: Listener)
    | VideoDataListenerRemoved(retriever: VideoRetriever, listener: Listener)

  class DroneController {
    /** The coordinator's state, version and configuration, as its getters report them. */
    var coordinatorState: ControllerState
    var coordinatorVersion: Coordinator.DroneVersion
    var coordinatorConfiguration: Option<DroneConfiguration>
    var config: Option<Config>
    /** Commands handed to the command sender, in order. */
    var submissions: seq<Submission>
    /** Coordinator calls and emitted ready-state signals, in order. */
    var effects: seq<Effect>
    var registry: seq<RegistryCall>

    constructor (state: ControllerState, version: Coordinator.DroneVersion,
                 configuration: Option<DroneConfiguration>)
      ensures coordinatorState == state && coordinatorVersion == version
      ensures coordinatorConfiguration == configuration
      ensures config == None && submissions == [] && effects == [] && registry == []
    {
      coordinatorState := state;
      coordinatorVersion := version;
      coordinatorConfiguration := configuration;
      config := None;
      submissions := [];
      effects := [];
      registry := [];
    }

    predicate IsInitialized()
      reads this
    {
      coordinatorState == ControllerReady
    }

    method CheckInitializationState() returns (r: Outcome)
      ensures r == Done <==> coordinatorState == ControllerReady
      ensures r != Done ==> r == Refused(NotInitialized)
    {
      r := if IsInitialized() then Done else Refused(NotInitialized);
    }

    method CheckInitializationStateStarted() returns (r: Outcome)
      ensures r == Done <==> coordinatorState == Started
      ensures r != Done ==> r == Refused(AlreadyInitialized)
    {
      r := if coordinatorState == Started then Done else Refused(AlreadyInitialized);
    }

    /**
     * `start`: only from STARTED; stores the config, runs the coordinator's
     * start (which leaves the coordinator in `stateAfterStart`), and only after
     * that returns emits READY.
     */
    method Start(c: Config, stateAfterStart: ControllerState) returns (r: Outcome)
      modifies this`config, this`coordinatorState, this`effects
      ensures r == Done <==> old(coordinatorState) == Started
      ensures r == Done ==>
        && config == Some(c) && coordinatorState == stateAfterStart
        && effects == old(effects) + [StartCoordinator(c), Emitted(Ready)]
      ensures r != Done ==>
        && r == Refused(AlreadyInitialized)
        && config == old(config) && coordinatorState == old(coordinatorState)
        && effects == old(effects)
    {
      r := CheckInitializationStateStarted();
      if r != Done {
        return;
      }
      config := Some(c);
      effects := effects + [StartCoordinator(c)];
      coordinatorState := stateAfterStart;
      effects := effects + [Emitted(Ready)];
    }

    method Stop() returns (r: Outcome)
      modifies this`effects
      ensures r == Done <==> old(coordinatorState) == ControllerReady
      ensures effects == old(effects) + (if r == Done then [StopCoordinator] else [])
      ensures r != Done ==> r == Refused(NotInitialized)
    {
      r := CheckInitializationState();
      if r != Done {
        return;
      }
      effects := effects + [StopCoordinator];
    }

    method GetDroneVersion() returns (r: Result<Coordinator.DroneVersion>)
      ensures r.Ok? <==> coordinatorState == ControllerReady
      ensures r.Ok? ==> r.value == coordinatorVersion
      ensures r.Failed? ==> r.failure == NotInitialized
    {
      var check := CheckInitializationState();
      if check != Done {
        return Failed(NotInitialized);
      }
      return Ok(coordinatorVersion);
    }

    method GetDroneConfiguration() returns (r: Result<Option<DroneConfiguration>>)
      ensures r.Ok? <==> coordinatorState == ControllerReady
      ensures r.Ok? ==> r.value == coordinatorConfiguration
      ensures r.Failed? ==> r.failure == NotInitialized
    {
      var check := CheckInitializationState();
      if check != Done {
        return Failed(NotInitialized);
      }
      return Ok(coordinatorConfiguration);
    }

    method SendCommand(command: Command)
      modifies this`submissions
      ensures submissions == old(submissions) + [Sent(command)]
    {
      submissions := submissions + [Sent(command)];
    }

    /** `sendAsyncConfigCommand`: the executor task hands the command to `sendConfigCommand`. */
    method SendAsyncConfigCommand(command: Command)
      modifies this`submissions
      ensures submissions == old(submissions) + [ConfigSent(command)]
    {
      submissions := submissions + [ConfigSent(command)];
    }

    method TakeOff() returns (r: Outcome)
      modifies this`submissions
      ensures var d := Dispatch(old(coordinatorState), old(config), TakeOffIntent);
        r == OutcomeOf(d) && submissions == old(submissions) + SubmittedBy(d)
    {
      r := CheckInitializationState();
      if r != Done {
        return;
      }
      SendCommand(FlightModeCommand(FlightMode.TakeOff));
    }

    method Land() returns (r: Outcome)
      modifies this`submissions
      ensures var d := Dispatch(old(coordinatorState), old(config), LandIntent);
        r == OutcomeOf(d) && submissions == old(submissions) + SubmittedBy(d)
    {
      r := CheckInitializationState();
      if r != Done {
        return;
      }
      SendCommand(FlightModeCommand(FlightMode.Land));
    }

    method Emergency() returns (r: Outcome)
      modifies this`submissions
      ensures var d := Dispatch(old(coordinatorState), old(config), EmergencyIntent);
        r == OutcomeOf(d) && submissions == old(submissions) + SubmittedBy(d)
    {
      r := CheckInitializationState();
      if r != Done {
        return;
      }
      SendCommand(FlightModeCommand(FlightMode.Emergency));
    }

    method FlatTrim() returns (r: Outcome)
      modifies this`submissions
      ensures var d := Dispatch(old(coordinatorState), old(config), FlatTrimIntent);
        r == OutcomeOf(d) && submissions == old(submissions) + SubmittedBy(d)
    {
      r := CheckInitializationState();
      if r != Done {
        return;
      }
      SendCommand(FlatTrimCommand);
    }

    method Move(roll: real, pitch: real, yaw: real, gaz: real) returns (r: Outcome)
      modifies this`submissions
      ensures var d := Dispatch(old(coordinatorState), old(config), MoveIntent(roll, pitch, yaw, gaz));
        r == OutcomeOf(d) && submissions == old(submissions) + SubmittedBy(d)
    {
      r := CheckInitializationState();
      if r != Done {
        return;
      }
      SendCommand(FlightMoveCommand(roll, pitch, yaw, gaz));
    }

    method SetConfigurationValue(key: string, value: string) returns (r: Outcome)
      modifies this`submissions
      ensures var d := Dispatch(old(coordinatorState), old(config), SetConfigurationValueIntent(key, value));
        r == OutcomeOf(d) && submissions == old(submissions) + SubmittedBy(d)
    {
      r := CheckInitializationState();
      if r != Done {
        return;
      }
      if config == None {
        return Refused(NullConfig);
      }
      var c := config.value;
      SendAsyncConfigCommand(SetConfigValueCommand(c.sessionChecksum, c.profileChecksum, c.applicationChecksum, key, value));
    }

    method SwitchCamera(camera: string) returns (r: Outcome)
      modifies this`submissions
      ensures var d := Dispatch(old(coordinatorState), old(config), SwitchCameraIntent(camera));
        r == OutcomeOf(d) && submissions == old(submissions) + SubmittedBy(d)
    {
      r := CheckInitializationState();
      if r != Done {
        return;
      }
      if config == None {
        return Refused(NullConfig);
      }
      var c := config.value;
      SendAsyncConfigCommand(SwitchCameraCommand(c.sessionChecksum, c.profileChecksum, c.applicationChecksum, camera));
    }

    /** Sent without the initialization check. */
    method PlayLedAnimation() returns (r: Outcome)
      modifies this`submissions
      ensures var d := Dispatch(old(coordinatorState), old(config), PlayLedAnimationIntent);
        r == OutcomeOf(d) && submissions == old(submissions) + SubmittedBy(d)
    {
      if config == None {
        return Refused(NullConfig);
      }
      var c := config.value;
      SendCommand(PlayLedAnimationCommand(c.sessionChecksum, c.profileChecksum, c.applicationChecksum));
      r := Done;
    }

    method AddReadyStateChangeListener(listener: Listener)
      modifies this`registry
      ensures registry == old(registry) + [ReadyListenerAdded(listener)]
    {
      registry := registry + [ReadyListenerAdded(listener)];
    }

    /** As written, this registers the listener a second time instead of removing it. */
    method RemoveReadyStateChangeListener(listener: Listener)
      modifies this`registry
      ensures registry == old(registry) + [ReadyListenerAdded(listener)]
    {
      registry := registry + [ReadyListenerAdded(listener)];
    }

    method AddNavDataListener(listener: Listener)
      modifies this`registry
      ensures registry == old(registry) + [NavDataListenerAdded(listener)]
    {
      registry := registry + [NavDataListenerAdded(listener)];
    }

    method RemoveNavDataListener(listener: Listener)
      modifies this`registry
      ensures registry == old(registry) + [NavDataListenerRemoved(listener)]
    {
      registry := registry + [NavDataListenerRemoved(listener)];
    }

    method AddVideoDataListener(listener: Listener)
      modifies this`registry
      ensures registry == old(registry) + [VideoDataListenerAdded(VideoRetrieverH264, listener),
                                           VideoDataListenerAdded(VideoRetrieverP264, listener)]
    {
      registry := registry + [VideoDataListenerAdded(VideoRetrieverH264, listener)];
      registry := registry + [VideoDataListenerAdded(VideoRetrieverP264, listener)];
    }

    method RemoveVideoDataListener(listener: Listener)
      modifies this`registry
      ensures registry == old(registry) + [VideoDataListenerRemoved(VideoRetrieverH264, listener),
                                           VideoDataListenerRemoved(VideoRetrieverP264, listener)]
    {
      registry := registry + [VideoDataListenerRemoved(VideoRetrieverH264, listener)];
      registry := registry + [VideoDataListenerRemoved(VideoRetrieverP264, listener)];
    }
  }
}
