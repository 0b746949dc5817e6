/** The stand-in for the traffic backend: an object holding the simulation
    state and updating it in place once per tick. Each method is proved
    against the value-level model in MockSimulation. */
module MockWebSocket {
  import opened Types
  import opened MockSimulation

  class MockWebSocketService {
    var currentPhase: Phase
    var phaseStartTime: int
    var greenDuration: real
    var vehicleQueues: Queues
    var pedestrianQueues: Queues
    var timeStep: nat

    /** The simulation state held by this object, as a value. */
    function State(): SimState
      reads this
    {
      SimState(currentPhase, phaseStartTime, greenDuration, vehicleQueues, pedestrianQueues, timeStep)
    }

    ghost predicate Valid()
      reads this
    {
      Inv(State())
    }

    /** A fresh service whose phase clock starts at `now`. */
    constructor (now: int)
      ensures Valid() && State() == Initial(now)
    {
      currentPhase := Phase1;
      phaseStartTime := now;
      greenDuration := InitialGreenTime;
      vehicleQueues := Queues(north := 5, south := 7, east := 3, west := 4);
      pedestrianQueues := Queues(north := 2, south := 3, east := 1, west := 2);
      timeStep := 0;
    }

    /** One tick at clock reading `now`, with the random samples `draws`. */
    method UpdateSimulation(now: int, draws: seq<real>)
      requires Valid() && |draws| == DrawsPerTick
      modifies this
      ensures Valid() && State() == Tick(old(State()), now, draws)
    {
      timeStep := timeStep + 1;
      var phaseElapsedTime := (now - phaseStartTime) as real / MillisPerSecond as real;
      if phaseElapsedTime >= greenDuration {
        SwitchPhase(now);
      } else {
        UpdateVehicleQueues(draws[..VehicleDraws]);
        UpdatePedestrianQueues(draws[VehicleDraws..]);
      }
    }

    /** Flip the phase, restart its clock at `now` and recompute its green
        budget from the vehicle queues. */
    method SwitchPhase(now: int)
      requires Valid()
      modifies this`currentPhase, this`phaseStartTime, this`greenDuration
      ensures Valid() && State() == AfterSwitch(old(State()), now)
    {
      currentPhase := if currentPhase == Phase1 then Phase2 else Phase1;
      phaseStartTime := now;
      var phase1Density := vehicleQueues.north + vehicleQueues.south;
      var phase2Density := vehicleQueues.east + vehicleQueues.west;
      var totalDensity := phase1Density + phase2Density;
      var currentPhaseDensity := if currentPhase == Phase1 then phase1Density else phase2Density;
      if totalDensity > 0 {
        var ratio := currentPhaseDensity as real / totalDensity as real;
        greenDuration := RealMax(MinGreenTime, RealMin(MaxGreenTime, MinGreenTime + (MaxGreenTime - MinGreenTime) * ratio));
      } else {
        greenDuration := MinGreenTime;
      }
    }

    /** Advance the four vehicle queues by one tick under the current phase;
        `draws` are the six samples in the order they are drawn. */
    method UpdateVehicleQueues(draws: seq<real>)
      requires Valid() && |draws| == VehicleDraws
      modifies this`vehicleQueues
      ensures Valid() && vehicleQueues == AdvanceVehicles(currentPhase, old(vehicleQueues), draws)
    {
      var arrival := VehicleArrivalRate;
      var service := VehicleServiceRate;
      if currentPhase == Phase1 {
        vehicleQueues := vehicleQueues.(north := Max(0,
          vehicleQueues.north + RandomOutcome(draws[0], arrival) - RandomOutcome(draws[1], service)));
        vehicleQueues := vehicleQueues.(south := Max(0,
          vehicleQueues.south + RandomOutcome(draws[2], arrival) - RandomOutcome(draws[3], service)));
        vehicleQueues := vehicleQueues.(east := Min(VehicleCap, vehicleQueues.east + RandomOutcome(draws[4], arrival)));
        vehicleQueues := vehicleQueues.(west := Min(VehicleCap, vehicleQueues.west + RandomOutcome(draws[5], arrival)));
      } else {
        vehicleQueues := vehicleQueues.(east := Max(0,
          vehicleQueues.east + RandomOutcome(draws[0], arrival) - RandomOutcome(draws[1], service)));
        vehicleQueues := vehicleQueues.(west := Max(0,
          vehicleQueues.west + RandomOutcome(draws[2], arrival) - RandomOutcome(draws[3], service)));
        vehicleQueues := vehicleQueues.(north := Min(VehicleCap, vehicleQueues.north + RandomOutcome(draws[4], arrival)));
        vehicleQueues := vehicleQueues.(south := Min(VehicleCap, vehicleQueues.south + RandomOutcome(draws[5], arrival)));
      }
      assert vehicleQueues == AdvanceVehicles(currentPhase, old(vehicleQueues), draws);
    }

    /** Advance the four pedestrian queues by one tick under the current
        phase; `draws` are the two samples for the waiting side. */
    method UpdatePedestrianQueues(draws: seq<real>)
      requires Valid() && |draws| == PedestrianDraws
      modifies this`pedestrianQueues
      ensures Valid() && pedestrianQueues == AdvancePedestrians(currentPhase, old(pedestrianQueues), draws)
    {
      var arrival := PedestrianArrivalRate;
      if currentPhase == Phase1 {
        pedestrianQueues := pedestrianQueues.(east := Max(0, pedestrianQueues.east - pedestrianQueues.east));
        pedestrianQueues := pedestrianQueues.(west := Max(0, pedestrianQueues.west - pedestrianQueues.west));
        pedestrianQueues := pedestrianQueues.(north := Min(PedestrianCap, pedestrianQueues.north + RandomOutcome(draws[0], arrival)));
        pedestrianQueues := pedestrianQueues.(south := Min(PedestrianCap, pedestrianQueues.south + RandomOutcome(draws[1], arrival)));
      } else {
        pedestrianQueues := pedestrianQueues.(north := Max(0, pedestrianQueues.north - pedestrianQueues.north));
        pedestrianQueues := pedestrianQueues.(south := Max(0, pedestrianQueues.south - pedestrianQueues.south));
        pedestrianQueues := pedestrianQueues.(east := Min(PedestrianCap, pedestrianQueues.east + RandomOutcome(draws[0], arrival)));
        pedestrianQueues := pedestrianQueues.(west := Min(PedestrianCap, pedestrianQueues.west + RandomOutcome(draws[1], arrival)));
      }
      assert pedestrianQueues == AdvancePedestrians(currentPhase, old(pedestrianQueues), draws);
    }
  }
}
