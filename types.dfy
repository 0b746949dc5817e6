/** Records exchanged between the simulator, the store and the display
    (the response and UI-state types of the dashboard). Timestamps that the
    simulator produces from the wall clock are not part of the model. */
module Types {

  /** A value that may be absent (`null` or `undefined` in the dashboard). */
  datatype Option<+T> = None | Some(value: T)

  /** Which pair of directions has the green vehicle light:
      Phase1 is north-south, Phase2 is east-west. */
  datatype Phase = Phase1 | Phase2

  datatype LightColor = Red | Yellow | Green

  datatype SimulationStatus = Idle | Running | Paused | Completed | Error

  /** One traffic snapshot as the simulator publishes it. */
  datatype TrafficStateResponse = TrafficStateResponse(
    timeStep: int,
    vehiclesNorth: int,
    vehiclesSouth: int,
    vehiclesEast: int,
    vehiclesWest: int,
    pedestriansNorth: int,
    pedestriansSouth: int,
    pedestriansEast: int,
    pedestriansWest: int,
    currentPhase: Phase,
    currentGreenTime: int,
    calculatedGreenTime: real,
    phase1Density: real,
    phase2Density: real)

  /** The signal shown to one pair of directions. */
  datatype DirectionLight = DirectionLight(color: LightColor, duration: real, pedestrianCrossing: bool)

  datatype TrafficLightStatus = TrafficLightStatus(
    simulationId: string,
    timeStep: int,
    northSouth: DirectionLight,
    eastWest: DirectionLight,
    currentGreenTime: int,
    remainingGreenTime: real,
    nextPhaseCountdown: real,
    northSouthDensity: real,
    eastWestDensity: real)

  /** The backend's view of one simulation run. */
  datatype SimulationStatusResponse = SimulationStatusResponse(
    simulationId: string,
    status: SimulationStatus,
    currentTimeStep: int,
    totalTimeSteps: int,
    progress: real,
    currentState: TrafficStateResponse,
    message: Option<string>,
    lastUpdate: string)
}
