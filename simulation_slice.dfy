/** The store's simulation slice: the UI state record and the reducers that
    update it in place, one method per action the slice handles. Each
    method's `modifies` frame names exactly the fields its reducer assigns;
    every other field keeps its value. */
module SimulationSlice {
  import opened Types

  const CreateFailedMessage: string := "Failed to create simulation"
  const StartFailedMessage: string := "Failed to start simulation"

  /** A partial status record: `Some` marks a field present in the payload.
      `message` is itself optional in the record, hence the nested Option. */
  datatype StatusPatch = StatusPatch(
    simulationId: Option<string>,
    status: Option<SimulationStatus>,
    currentTimeStep: Option<int>,
    totalTimeSteps: Option<int>,
    progress: Option<real>,
    currentState: Option<TrafficStateResponse>,
    message: Option<Option<string>>,
    lastUpdate: Option<string>)

  /** `{...current, ...patch}`: each field present in the patch overwrites,
      each absent field keeps its current value. */
  function Merge(current: SimulationStatusResponse, patch: StatusPatch): (r: SimulationStatusResponse)
    ensures r.simulationId == (if patch.simulationId.Some? then patch.simulationId.value else current.simulationId)
    ensures r.status == (if patch.status.Some? then patch.status.value else current.status)
    ensures r.currentTimeStep == (if patch.currentTimeStep.Some? then patch.currentTimeStep.value else current.currentTimeStep)
    ensures r.totalTimeSteps == (if patch.totalTimeSteps.Some? then patch.totalTimeSteps.value else current.totalTimeSteps)
    ensures r.progress == (if patch.progress.Some? then patch.progress.value else current.progress)
    ensures r.currentState == (if patch.currentState.Some? then patch.currentState.value else current.currentState)
    ensures r.message == (if patch.message.Some? then patch.message.value else current.message)
    ensures r.lastUpdate == (if patch.lastUpdate.Some? then patch.lastUpdate.value else current.lastUpdate)
  {
    SimulationStatusResponse(
      simulationId := Override(current.simulationId, patch.simulationId),
      status := Override(current.status, patch.status),
      currentTimeStep := Override(current.currentTimeStep, patch.currentTimeStep),
      totalTimeSteps := Override(current.totalTimeSteps, patch.totalTimeSteps),
      progress := Override(current.progress, patch.progress),
      currentState := Override(current.currentState, patch.currentState),
      message := Override(current.message, patch.message),
      lastUpdate := Override(current.lastUpdate, patch.lastUpdate))
  }

  function Override<T>(current: T, field: Option<T>): T {
    match field
    case Some(x) => x
    case None => current
  }

  /** Merging a patch twice is the same as merging it once. */
  lemma MergeIdempotent(current: SimulationStatusResponse, patch: StatusPatch)
    ensures Merge(Merge(current, patch), patch) == Merge(current, patch)
  {
  }

  /** `message || fallback` for an error message that may be missing: the
      empty string is falsy, so it too yields the fallback. */
  function RejectionMessage(message: Option<string>, fallback: string): (r: string)
    ensures message.Some? && message.value != "" ==> r == message.value
    ensures message.None? || message.value == "" ==> r == fallback
  {
    match message
    case Some(m) => if m != "" then m else fallback
    case None => fallback
  }

  class SimulationSliceState {
    var currentSimulation: Option<SimulationStatusResponse>
    var trafficLights: Option<TrafficLightStatus>
    var isConnected: bool
    var isLoading: bool
    var error: Option<string>

    /** The slice's initial state. */
    constructor ()
      ensures currentSimulation == None && trafficLights == None
      ensures !isConnected && !isLoading && error == None
    {
      currentSimulation := None;
      trafficLights := None;
      isConnected := false;
      isLoading := false;
      error := None;
    }

    /** `setTrafficState`: record the snapshot and its time step in the
        current simulation; without a simulation, nothing changes. */
    method SetTrafficState(payload: TrafficStateResponse)
      modifies this`currentSimulation
      ensures old(currentSimulation).None? ==> currentSimulation == None
      ensures old(currentSimulation).Some? ==>
        currentSimulation == Some(old(currentSimulation).value.(currentState := payload, currentTimeStep := payload.timeStep))
    {
      if currentSimulation.Some? {
        currentSimulation := Some(currentSimulation.value.(currentState := payload));
        currentSimulation := Some(currentSimulation.value.(currentTimeStep := payload.timeStep));
      }
    }

    /** `setTrafficLights`. */
    method SetTrafficLights(payload: TrafficLightStatus)
      modifies this`trafficLights
      ensures trafficLights == Some(payload)
    {
      trafficLights := Some(payload);
    }

    /** `setConnectionStatus`. */
    method SetConnectionStatus(connected: bool)
      modifies this`isConnected
      ensures isConnected == connected
    {
      isConnected := connected;
    }

    /** `clearError`. */
    method ClearError()
      modifies this`error
      ensures error == None
    {
      error := None;
    }

    /** `updateSimulationStatus`: merge the partial payload into the current
        simulation; without a simulation, nothing changes. */
    method UpdateSimulationStatus(patch: StatusPatch)
      modifies this`currentSimulation
      ensures old(currentSimulation).None? ==> currentSimulation == None
      ensures old(currentSimulation).Some? ==> currentSimulation == Some(Merge(old(currentSimulation).value, patch))
    {
      if currentSimulation.Some? {
        currentSimulation := Some(Merge(currentSimulation.value, patch));
      }
    }

    /** `createSimulation.pending`. */
    method CreateSimulationPending()
      modifies this`isLoading, this`error
      ensures isLoading && error == None
    {
      isLoading := true;
      error := None;
    }

    /** `createSimulation.fulfilled`: the response carries only an id, which
        the slice does not keep. */
    method CreateSimulationFulfilled()
      modifies this`isLoading
      ensures !isLoading
    {
      isLoading := false;
    }

    /** `createSimulation.rejected` with the thrown error's message. */
    method CreateSimulationRejected(message: Option<string>)
      modifies this`isLoading, this`error
      ensures !isLoading
      ensures error == Some(RejectionMessage(message, CreateFailedMessage))
    {
      isLoading := false;
      error := Some(RejectionMessage(message, CreateFailedMessage));
    }

    /** `startSimulation.pending`. */
    method StartSimulationPending()
      modifies this`isLoading, this`error
      ensures isLoading && error == None
    {
      isLoading := true;
      error := None;
    }

    /** `startSimulation.fulfilled`: the current simulation, if any, is
        running. */
    method StartSimulationFulfilled()
      modifies this`isLoading, this`currentSimulation
      ensures !isLoading
      ensures old(currentSimulation).None? ==> currentSimulation == None
      ensures old(currentSimulation).Some? ==> currentSimulation == Some(old(currentSimulation).value.(status := Running))
    {
      isLoading := false;
      if currentSimulation.Some? {
        currentSimulation := Some(currentSimulation.value.(status := Running));
      }
    }

    /** `startSimulation.rejected` with the thrown error's message. */
    method StartSimulationRejected(message: Option<string>)
      modifies this`isLoading, this`error
      ensures !isLoading
      ensures error == Some(RejectionMessage(message, StartFailedMessage))
    {
      isLoading := false;
      error := Some(RejectionMessage(message, StartFailedMessage));
    }

    /** `stopSimulation.fulfilled`: the current simulation, if any, is idle;
        the loading flag is left as it is. */
    method StopSimulationFulfilled()
      modifies this`currentSimulation
      ensures old(currentSimulation).None? ==> currentSimulation == None
      ensures old(currentSimulation).Some? ==> currentSimulation == Some(old(currentSimulation).value.(status := Idle))
    {
      if currentSimulation.Some? {
        currentSimulation := Some(currentSimulation.value.(status := Idle));
      }
    }

    /** `getSimulationStatus.fulfilled`: the response's data, which may be
        missing, replaces the current simulation. */
    method GetSimulationStatusFulfilled(data: Option<SimulationStatusResponse>)
      modifies this`currentSimulation
      ensures currentSimulation == data
    {
      currentSimulation := data;
    }
  }
}
