/**
 * Values shared by the drone-control core: readiness signals, telemetry
 * (navigation data), configuration snapshots and the closed set of commands
 * the client sends to the vehicle.
 */
module DroneTypes {

  datatype Option<T> = None | Some(value: T)

  /** The two readiness signals every worker emits to its listeners. */
  datatype ReadyState = Ready | NotReady

  /**
   * The coordinator's five-valued startup state (the `State` enum of
   * DroneCoordinator, which DroneController reads as a `ControllerState`).
   */
  datatype ControllerState =
    | Started
    | CommandOneRetrieverReady
    | CommandTwoRetrieversReady
    | WorkersReady
    | ControllerReady

  /**
   * The part of a telemetry packet the core reads: the flying and emergency
   * flags and the "control received" bit used as an implicit acknowledgement.
   * Altitude and battery values are not modelled.
   */
  datatype NavData = NavData(flying: bool, emergency: bool, controlReceived: bool)

  /** An immutable configuration snapshot: key to value. */
  datatype DroneConfiguration = DroneConfiguration(entries: map<string, string>)

  datatype FlightMode = TakeOff | Land | Emergency

  datatype ControlDataMode = GetControlData | ResetAckFlag

  /**
   * The commands the core builds. The checksummed variants carry the session,
   * profile and application checksums of the current session; the two-argument
   * `SetConfigValueCommand` used during login carries none.
   */
  datatype Command =
    | FlightModeCommand(mode: FlightMode)
    | FlatTrimCommand
    | FlightMoveCommand(roll: real, pitch: real, yaw: real, gaz: real)
    | LoginConfigValueCommand(key: string, value: string)
    | SetConfigValueCommand(sessionChecksum: string, profileChecksum: string,
                            applicationChecksum: string, key: string, value: string)
    | SwitchCameraCommand(sessionChecksum: string, profileChecksum: string,
                          applicationChecksum: string, camera: string)
    | PlayLedAnimationCommand(sessionChecksum: string, profileChecksum: string,
                              applicationChecksum: string)
    | ControlDataCommand(controlMode: ControlDataMode)

  /** Listener objects are modelled by identity only. */
  type Listener = nat
}
