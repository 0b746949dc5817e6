/** The mock traffic simulator as values: the simulation state, one tick of
    the two-phase adaptive controller, the queue dynamics and the snapshot
    projections. The clock (`Date.now()`) becomes a parameter `now` in
    milliseconds, and every `Math.random()` call becomes a sample `u` passed
    in by the caller, in the order the simulator draws them. */
module MockSimulation {
  import opened Types

  // Constants the simulator hard-codes.
  const MinGreenTime: real := 15.0
  const MaxGreenTime: real := 45.0
  const InitialGreenTime: real := 30.0
  const VehicleArrivalRate: real := 0.3
  const VehicleServiceRate: real := 0.5
  const PedestrianArrivalRate: real := 0.1
  const VehicleCap: int := 15
  const PedestrianCap: int := 8
  const DensityScale: real := 15.0
  const MillisPerSecond: int := 1000
  const MockSimulationId: string := "mock-sim-123"

  /** Random samples drawn by one tick that advances the queues:
      six for the vehicle queues, then two for the pedestrian queues. */
  const VehicleDraws: nat := 6
  const PedestrianDraws: nat := 2
  const DrawsPerTick: nat := VehicleDraws + PedestrianDraws

  datatype Direction = North | South | East | West

  /** One count per approach direction. */
  datatype Queues = Queues(north: int, south: int, east: int, west: int)
  {
    function Count(d: Direction): int {
      match d
      case North => north
      case South => south
      case East => east
      case West => west
    }
  }

  datatype SimState = SimState(
    currentPhase: Phase,
    phaseStartTime: int,
    greenDuration: real,
    vehicleQueues: Queues,
    pedestrianQueues: Queues,
    timeStep: nat)

  function Max(a: int, b: int): int { if a < b then b else a }
  function Min(a: int, b: int): int { if a < b then a else b }
  function RealMax(a: real, b: real): real { if a < b then b else a }
  function RealMin(a: real, b: real): real { if a < b then a else b }

  /** The other phase: the only transition of the signal controller. */
  function Other(p: Phase): (q: Phase)
    ensures q != p
  {
    if p == Phase1 then Phase2 else Phase1
  }

  /** Vehicles from `d` have the green light in phase `p`. */
  predicate GreenFor(p: Phase, d: Direction) {
    (p == Phase1) == (d == North || d == South)
  }

  /** The invariant every reachable state keeps. */
  ghost predicate Inv(s: SimState) {
    && (forall d :: s.vehicleQueues.Count(d) >= 0)
    && (forall d :: 0 <= s.pedestrianQueues.Count(d) <= PedestrianCap)
    && MinGreenTime <= s.greenDuration <= MaxGreenTime
  }

  /** The state the service starts from, at clock reading `now`. */
  function Initial(now: int): (s: SimState)
    ensures Inv(s)
    ensures s.timeStep == 0 && s.currentPhase == Phase1 && s.phaseStartTime == now
    ensures forall d :: s.vehicleQueues.Count(d) <= VehicleCap
    ensures s.vehicleQueues == Queues(5, 7, 3, 4) && s.pedestrianQueues == Queues(2, 3, 1, 2)
    ensures s.greenDuration == InitialGreenTime
  {
    SimState(Phase1, now, InitialGreenTime, Queues(5, 7, 3, 4), Queues(2, 3, 1, 2), 0)
  }

  // ---------------------------------------------------------------------
  // Arrivals, services and the four kinds of queue update

  /** `Math.random() < rate ? 1 : 0` for the sample `u`: one arrival or one
      service in this tick, or none. */
  function RandomOutcome(u: real, rate: real): (r: int)
    ensures r == 0 || r == 1
    ensures r == 1 <==> u < rate
  {
    if u < rate then 1 else 0
  }

  /** A direction with the green light: one vehicle may arrive and one may
      leave; the count is clamped below at 0 and nowhere above. */
  function ServicedCount(count: int, uArrival: real, uService: real): (r: int)
    ensures r >= 0
    ensures count - 1 <= r
    ensures count >= 0 ==> r <= count + 1
    ensures count >= 0 && r > count ==> uArrival < VehicleArrivalRate && uService >= VehicleServiceRate
    ensures r < count ==> uService < VehicleServiceRate
    ensures count >= 0 && uArrival < VehicleArrivalRate && uService >= VehicleServiceRate ==> r == count + 1
    ensures count > 0 && uArrival >= VehicleArrivalRate && uService < VehicleServiceRate ==> r == count - 1
    ensures count >= 0 && (uArrival < VehicleArrivalRate <==> uService < VehicleServiceRate) ==> r == count
  {
    Max(0, count + RandomOutcome(uArrival, VehicleArrivalRate) - RandomOutcome(uService, VehicleServiceRate))
  }

  /** A direction with the red light: one vehicle may arrive, none leaves,
      and the count is clamped above at the capacity. */
  function BlockedCount(count: int, uArrival: real): (r: int)
    ensures r <= VehicleCap
    ensures r <= count + 1
    ensures count >= 0 ==> r >= 0
    ensures count <= VehicleCap ==> r >= count
    ensures count >= VehicleCap ==> r == VehicleCap
    ensures r > count ==> uArrival < VehicleArrivalRate
    ensures count < VehicleCap && uArrival < VehicleArrivalRate ==> r == count + 1
    ensures count <= VehicleCap && uArrival >= VehicleArrivalRate ==> r == count
  {
    Min(VehicleCap, count + RandomOutcome(uArrival, VehicleArrivalRate))
  }

  /** Pedestrians who must wait for the cross phase: one may arrive, and
      the count is clamped above at the pedestrian capacity. */
  function WaitingPedestrians(count: int, uArrival: real): (r: int)
    ensures r <= PedestrianCap
    ensures r <= count + 1
    ensures count >= 0 ==> r >= 0
    ensures count <= PedestrianCap ==> r >= count
    ensures r > count ==> uArrival < PedestrianArrivalRate
    ensures count < PedestrianCap && uArrival < PedestrianArrivalRate ==> r == count + 1
    ensures count <= PedestrianCap && uArrival >= PedestrianArrivalRate ==> r == count
  {
    Min(PedestrianCap, count + RandomOutcome(uArrival, PedestrianArrivalRate))
  }

  /** Pedestrians who may cross: the queue empties. The simulator writes
      this as `max(0, count - count)`, which the body keeps. */
  function CrossingPedestrians(count: int): (r: int)
    ensures r == 0
  {
    Max(0, count - count)
  }

  /** The first direction of each pair, in the order the simulator updates
      them: north before south, east before west. */
  predicate FirstOfPair(d: Direction) {
    d == North || d == East
  }

  /** Where, among the six vehicle samples of a tick, direction `d`'s
      arrival sample sits in phase `p`: the green pair draws first (arrival
      then service, per direction), then the red pair one arrival each. */
  function ArrivalDraw(p: Phase, d: Direction): (i: nat)
    ensures i < VehicleDraws
    ensures GreenFor(p, d) ==> i + 1 < VehicleDraws
  {
    if GreenFor(p, d) then (if FirstOfPair(d) then 0 else 2)
    else (if FirstOfPair(d) then 4 else 5)
  }

  /** Where a green direction's service sample sits: right after its arrival. */
  function ServiceDraw(p: Phase, d: Direction): (i: nat)
    requires GreenFor(p, d)
    ensures i < VehicleDraws
  {
    ArrivalDraw(p, d) + 1
  }

  /** Where a waiting side's pedestrian sample sits among the two. */
  function PedestrianDraw(d: Direction): (i: nat)
    ensures i < PedestrianDraws
  {
    if FirstOfPair(d) then 0 else 1
  }

  /** Every sample of a tick drives at most one queue change: no two
      directions share an arrival sample, and no arrival sample is also a
      service sample. */
  lemma DrawsAreDistinct(p: Phase, d: Direction, e: Direction)
    ensures d != e ==> ArrivalDraw(p, d) != ArrivalDraw(p, e)
    ensures GreenFor(p, e) ==> ArrivalDraw(p, d) != ServiceDraw(p, e)
    ensures GreenFor(p, d) && GreenFor(p, e) && d != e ==> ServiceDraw(p, d) != ServiceDraw(p, e)
    ensures GreenFor(p, d) && GreenFor(p, e) && d != e ==> PedestrianDraw(d) != PedestrianDraw(e)
  {
  }

  /** `updateVehicleQueues`: the two green directions are serviced and the
      two red directions accumulate. `u` holds the samples in the order the
      simulator draws them: arrival and service of the first green direction,
      arrival and service of the second, then one arrival per red direction. */
  function AdvanceVehicles(p: Phase, v: Queues, u: seq<real>): (r: Queues)
    requires |u| == VehicleDraws
    ensures forall d :: v.Count(d) >= 0 ==> 0 <= r.Count(d) <= v.Count(d) + 1
    ensures forall d :: GreenFor(p, d) ==> r.Count(d) >= 0 && r.Count(d) >= v.Count(d) - 1
    ensures forall d :: !GreenFor(p, d) ==> r.Count(d) <= VehicleCap
    ensures forall d :: !GreenFor(p, d) && v.Count(d) <= VehicleCap ==> r.Count(d) >= v.Count(d)
    ensures forall d :: GreenFor(p, d) ==>
      r.Count(d) == ServicedCount(v.Count(d), u[ArrivalDraw(p, d)], u[ServiceDraw(p, d)])
    ensures forall d :: !GreenFor(p, d) ==> r.Count(d) == BlockedCount(v.Count(d), u[ArrivalDraw(p, d)])
  {
    if p == Phase1 then
      Queues(
        north := ServicedCount(v.north, u[0], u[1]),
        south := ServicedCount(v.south, u[2], u[3]),
        east := BlockedCount(v.east, u[4]),
        west := BlockedCount(v.west, u[5]))
    else
      Queues(
        east := ServicedCount(v.east, u[0], u[1]),
        west := ServicedCount(v.west, u[2], u[3]),
        north := BlockedCount(v.north, u[4]),
        south := BlockedCount(v.south, u[5]))
  }

  /** `updatePedestrianQueues`: pedestrians beside the red vehicle
      directions cross and their queues empty; those beside the green
      directions wait, one arrival each drawn from `u`. */
  function AdvancePedestrians(p: Phase, q: Queues, u: seq<real>): (r: Queues)
    requires |u| == PedestrianDraws
    ensures forall d :: !GreenFor(p, d) ==> r.Count(d) == 0
    ensures forall d :: GreenFor(p, d) ==> r.Count(d) <= PedestrianCap && r.Count(d) <= q.Count(d) + 1
    ensures forall d :: GreenFor(p, d) && 0 <= q.Count(d) <= PedestrianCap ==> q.Count(d) <= r.Count(d)
    ensures forall d :: GreenFor(p, d) ==> r.Count(d) == WaitingPedestrians(q.Count(d), u[PedestrianDraw(d)])
  {
    if p == Phase1 then
      Queues(
        east := CrossingPedestrians(q.east),
        west := CrossingPedestrians(q.west),
        north := WaitingPedestrians(q.north, u[0]),
        south := WaitingPedestrians(q.south, u[1]))
    else
      Queues(
        north := CrossingPedestrians(q.north),
        south := CrossingPedestrians(q.south),
        east := WaitingPedestrians(q.east, u[0]),
        west := WaitingPedestrians(q.west, u[1]))
  }

  // ---------------------------------------------------------------------
  // Adaptive green time

  /** Vehicles queued on the two approaches that phase `p` serves. */
  function PhaseDensity(p: Phase, v: Queues): int {
    if p == Phase1 then v.north + v.south else v.east + v.west
  }

  function TotalDensity(v: Queues): int {
    PhaseDensity(Phase1, v) + PhaseDensity(Phase2, v)
  }

  predicate NonNegative(v: Queues) {
    forall d :: v.Count(d) >= 0
  }

  lemma RatioBounds(a: int, t: int)
    requires 0 <= a <= t && t > 0
    ensures 0.0 <= a as real / t as real <= 1.0
    ensures (a as real / t as real) * t as real == a as real
  {
    var q := a as real / t as real;
    assert q * t as real == a as real;
  }

  /** The green budget given to phase `p` when it becomes active: the
      minimum plus the share of (max - min) equal to `p`'s share of all
      queued vehicles, clamped to [min, max]; the minimum when nothing is
      queued. */
  function NextGreenDuration(p: Phase, v: Queues): (r: real)
    ensures MinGreenTime <= r <= MaxGreenTime
    ensures TotalDensity(v) <= 0 ==> r == MinGreenTime
  {
    var totalDensity := TotalDensity(v);
    var currentPhaseDensity := PhaseDensity(p, v);
    if totalDensity > 0 then
      var ratio := currentPhaseDensity as real / totalDensity as real;
      RealMax(MinGreenTime, RealMin(MaxGreenTime, MinGreenTime + (MaxGreenTime - MinGreenTime) * ratio))
    else
      MinGreenTime
  }

  /** With vehicles queued, the clamp never cuts: the budget above the
      minimum is (max - min) times the new phase's share of the queued
      vehicles, stated here without division. */
  lemma GreenProportional(p: Phase, v: Queues)
    requires NonNegative(v) && TotalDensity(v) > 0
    ensures (NextGreenDuration(p, v) - MinGreenTime) * TotalDensity(v) as real
      == (MaxGreenTime - MinGreenTime) * PhaseDensity(p, v) as real
  {
    assert v.Count(North) >= 0 && v.Count(South) >= 0 && v.Count(East) >= 0 && v.Count(West) >= 0;
    RatioBounds(PhaseDensity(p, v), TotalDensity(v));
  }

  // ---------------------------------------------------------------------
  // One tick

  /** Seconds since the current phase started, as a real number. */
  function PhaseElapsed(s: SimState, now: int): (r: real)
    ensures r * MillisPerSecond as real == (now - s.phaseStartTime) as real
  {
    (now - s.phaseStartTime) as real / MillisPerSecond as real
  }

  /** The green budget of the current phase is used up at `now`. */
  predicate ShouldSwitch(s: SimState, now: int) {
    PhaseElapsed(s, now) >= s.greenDuration
  }

  /** `switchPhase`: flip the phase, restart its clock and give the new
      phase its green budget from the queues as they stand. */
  function AfterSwitch(s: SimState, now: int): (r: SimState)
    ensures r.currentPhase != s.currentPhase
    ensures r.phaseStartTime == now
    ensures MinGreenTime <= r.greenDuration <= MaxGreenTime
    ensures r.greenDuration == NextGreenDuration(r.currentPhase, s.vehicleQueues)
    ensures r.vehicleQueues == s.vehicleQueues && r.pedestrianQueues == s.pedestrianQueues
    ensures r.timeStep == s.timeStep
  {
    var p := Other(s.currentPhase);
    s.(currentPhase := p, phaseStartTime := now, greenDuration := NextGreenDuration(p, s.vehicleQueues))
  }

  /** `updateSimulation`: count the tick; then either switch phase (and
      leave every queue alone) or advance the queues (and leave the signal
      alone). */
  function Tick(s: SimState, now: int, u: seq<real>): (r: SimState)
    requires |u| == DrawsPerTick
    ensures r.timeStep == s.timeStep + 1
    ensures r.currentPhase != s.currentPhase <==> ShouldSwitch(s, now)
    ensures ShouldSwitch(s, now) ==>
      && r.phaseStartTime == now
      && r.greenDuration == NextGreenDuration(r.currentPhase, s.vehicleQueues)
      && r.vehicleQueues == s.vehicleQueues
      && r.pedestrianQueues == s.pedestrianQueues
    ensures !ShouldSwitch(s, now) ==>
      && r.phaseStartTime == s.phaseStartTime
      && r.greenDuration == s.greenDuration
      && r.vehicleQueues == AdvanceVehicles(s.currentPhase, s.vehicleQueues, u[..VehicleDraws])
      && r.pedestrianQueues == AdvancePedestrians(s.currentPhase, s.pedestrianQueues, u[VehicleDraws..])
    ensures Inv(s) ==> Inv(r)
  {
    var s1 := s.(timeStep := s.timeStep + 1);
    if PhaseElapsed(s1, now) >= s1.greenDuration then
      AfterSwitch(s1, now)
    else
      s1.(vehicleQueues := AdvanceVehicles(s1.currentPhase, s1.vehicleQueues, u[..VehicleDraws]),
          pedestrianQueues := AdvancePedestrians(s1.currentPhase, s1.pedestrianQueues, u[VehicleDraws..]))
  }

  /** The inputs of one tick: the clock reading and the random samples. */
  datatype TickInput = TickInput(now: int, draws: seq<real>)

  predicate WellFormed(ticks: seq<TickInput>) {
    forall i :: 0 <= i < |ticks| ==> |ticks[i].draws| == DrawsPerTick
  }

  /** The state after the ticks `ticks`, in order. */
  function Run(s: SimState, ticks: seq<TickInput>): SimState
    requires WellFormed(ticks)
    decreases |ticks|
  {
    if ticks == [] then s
    else Run(Tick(s, ticks[0].now, ticks[0].draws), ticks[1..])
  }

  /** Over any run the tick counter counts exactly the ticks, whichever of
      them switched phase. */
  lemma {:induction false} RunCountsTicks(s: SimState, ticks: seq<TickInput>)
    requires WellFormed(ticks)
    decreases |ticks|
    ensures Run(s, ticks).timeStep == s.timeStep + |ticks|
  {
    if ticks != [] {
      RestWellFormed(ticks);
      RunCountsTicks(Tick(s, ticks[0].now, ticks[0].draws), ticks[1..]);
    }
  }

  lemma RestWellFormed(ticks: seq<TickInput>)
    requires WellFormed(ticks) && ticks != []
    ensures WellFormed(ticks[1..])
  {
    forall i | 0 <= i < |ticks[1..]| ensures |ticks[1..][i].draws| == DrawsPerTick {
      assert ticks[1..][i] == ticks[i + 1];
    }
  }

  /** Over any run the invariant holds throughout (vehicle queues never
      negative, pedestrian queues within [0, 8], green budget within
      [15, 45]), and no vehicle queue grows faster than one per tick. */
  lemma {:induction false} RunKeepsInvariant(s: SimState, ticks: seq<TickInput>)
    requires Inv(s) && WellFormed(ticks)
    decreases |ticks|
    ensures Inv(Run(s, ticks))
    ensures forall d :: Run(s, ticks).vehicleQueues.Count(d) <= s.vehicleQueues.Count(d) + |ticks|
  {
    if ticks != [] {
      var s1 := Tick(s, ticks[0].now, ticks[0].draws);
      RestWellFormed(ticks);
      RunKeepsInvariant(s1, ticks[1..]);
      forall d ensures s1.vehicleQueues.Count(d) <= s.vehicleQueues.Count(d) + 1 {
        if !ShouldSwitch(s, ticks[0].now) {
          assert s.vehicleQueues.Count(d) >= 0;
        }
      }
    }
  }

  /** Every tick of `ticks` comes before the green budget of `s`'s phase is
      used up, so none of them switches. */
  predicate WithinGreen(s: SimState, ticks: seq<TickInput>) {
    forall i :: 0 <= i < |ticks| ==> !ShouldSwitch(s, ticks[i].now)
  }

  /** In every tick, the sample at position `k` is below `rate`: the event
      it decides happens. */
  predicate AllBelow(ticks: seq<TickInput>, k: nat, rate: real)
    requires WellFormed(ticks) && k < DrawsPerTick
  {
    forall i :: 0 <= i < |ticks| ==> ticks[i].draws[k] < rate
  }

  /** In every tick, the sample at position `k` is at least `rate`: the
      event it decides does not happen. */
  predicate NoneBelow(ticks: seq<TickInput>, k: nat, rate: real)
    requires WellFormed(ticks) && k < DrawsPerTick
  {
    forall i :: 0 <= i < |ticks| ==> ticks[i].draws[k] >= rate
  }

  /** A run that stays within the green budget keeps the signal: same
      phase, same phase clock, same budget. */
  lemma {:induction false} RunWithinGreenKeepsSignal(s: SimState, ticks: seq<TickInput>)
    requires WellFormed(ticks) && WithinGreen(s, ticks)
    decreases |ticks|
    ensures Run(s, ticks).currentPhase == s.currentPhase
    ensures Run(s, ticks).phaseStartTime == s.phaseStartTime
    ensures Run(s, ticks).greenDuration == s.greenDuration
  {
    if ticks != [] {
      var s1 := Tick(s, ticks[0].now, ticks[0].draws);
      assert !ShouldSwitch(s, ticks[0].now);
      RestWellFormed(ticks);
      RestWithinGreen(s, ticks);
      RunWithinGreenKeepsSignal(s1, ticks[1..]);
    }
  }

  /** After one non-switching tick, the rest of a run that stayed within
      the green budget still does. */
  lemma RestWithinGreen(s: SimState, ticks: seq<TickInput>)
    requires WellFormed(ticks) && WithinGreen(s, ticks) && ticks != []
    ensures WellFormed(ticks[1..])
    ensures WithinGreen(Tick(s, ticks[0].now, ticks[0].draws), ticks[1..])
  {
    RestWellFormed(ticks);
    var s1 := Tick(s, ticks[0].now, ticks[0].draws);
    assert !ShouldSwitch(s, ticks[0].now);
    forall i | 0 <= i < |ticks[1..]| ensures !ShouldSwitch(s1, ticks[1..][i].now) {
      assert ticks[1..][i] == ticks[i + 1];
    }
  }

  /** The draw conditions of a run hold for the rest of it too. */
  lemma RestDraws(ticks: seq<TickInput>, k: nat, rate: real)
    requires WellFormed(ticks) && k < DrawsPerTick && ticks != []
    ensures WellFormed(ticks[1..])
    ensures AllBelow(ticks, k, rate) ==> AllBelow(ticks[1..], k, rate)
    ensures NoneBelow(ticks, k, rate) ==> NoneBelow(ticks[1..], k, rate)
  {
    RestWellFormed(ticks);
    forall i | 0 <= i < |ticks[1..]| ensures ticks[1..][i] == ticks[i + 1] {
    }
  }

  /** A green queue that is served on every tick and gets no arrival
      drains one vehicle per tick, down to empty. */
  lemma {:induction false} GreenQueueDrains(s: SimState, ticks: seq<TickInput>, d: Direction)
    requires WellFormed(ticks) && WithinGreen(s, ticks)
    requires GreenFor(s.currentPhase, d) && s.vehicleQueues.Count(d) >= 0
    requires NoneBelow(ticks, ArrivalDraw(s.currentPhase, d), VehicleArrivalRate)
    requires AllBelow(ticks, ServiceDraw(s.currentPhase, d), VehicleServiceRate)
    decreases |ticks|
    ensures Run(s, ticks).vehicleQueues.Count(d) == Max(0, s.vehicleQueues.Count(d) - |ticks|)
  {
    if ticks != [] {
      var p := s.currentPhase;
      var s1 := Tick(s, ticks[0].now, ticks[0].draws);
      assert !ShouldSwitch(s, ticks[0].now);
      assert ticks[0].draws[ArrivalDraw(p, d)] >= VehicleArrivalRate;
      assert ticks[0].draws[ServiceDraw(p, d)] < VehicleServiceRate;
      assert s1.vehicleQueues.Count(d) == Max(0, s.vehicleQueues.Count(d) - 1);
      RestWithinGreen(s, ticks);
      RestDraws(ticks, ArrivalDraw(p, d), VehicleArrivalRate);
      RestDraws(ticks, ServiceDraw(p, d), VehicleServiceRate);
      GreenQueueDrains(s1, ticks[1..], d);
    }
  }

  /** A green queue that gets an arrival on every tick and is never served
      grows one vehicle per tick, with no upper bound. */
  lemma {:induction false} GreenQueueGrows(s: SimState, ticks: seq<TickInput>, d: Direction)
    requires WellFormed(ticks) && WithinGreen(s, ticks)
    requires GreenFor(s.currentPhase, d) && s.vehicleQueues.Count(d) >= 0
    requires AllBelow(ticks, ArrivalDraw(s.currentPhase, d), VehicleArrivalRate)
    requires NoneBelow(ticks, ServiceDraw(s.currentPhase, d), VehicleServiceRate)
    decreases |ticks|
    ensures Run(s, ticks).vehicleQueues.Count(d) == s.vehicleQueues.Count(d) + |ticks|
  {
    if ticks != [] {
      var p := s.currentPhase;
      var s1 := Tick(s, ticks[0].now, ticks[0].draws);
      assert !ShouldSwitch(s, ticks[0].now);
      assert ticks[0].draws[ArrivalDraw(p, d)] < VehicleArrivalRate;
      assert ticks[0].draws[ServiceDraw(p, d)] >= VehicleServiceRate;
      assert s1.vehicleQueues.Count(d) == s.vehicleQueues.Count(d) + 1;
      RestWithinGreen(s, ticks);
      RestDraws(ticks, ArrivalDraw(p, d), VehicleArrivalRate);
      RestDraws(ticks, ServiceDraw(p, d), VehicleServiceRate);
      GreenQueueGrows(s1, ticks[1..], d);
    }
  }

  /** A red queue that gets an arrival on every tick fills one vehicle per
      tick, up to the capacity. */
  lemma {:induction false} RedQueueFills(s: SimState, ticks: seq<TickInput>, d: Direction)
    requires WellFormed(ticks) && WithinGreen(s, ticks)
    requires !GreenFor(s.currentPhase, d) && s.vehicleQueues.Count(d) <= VehicleCap
    requires AllBelow(ticks, ArrivalDraw(s.currentPhase, d), VehicleArrivalRate)
    decreases |ticks|
    ensures Run(s, ticks).vehicleQueues.Count(d) == Min(VehicleCap, s.vehicleQueues.Count(d) + |ticks|)
  {
    if ticks != [] {
      var p := s.currentPhase;
      var s1 := Tick(s, ticks[0].now, ticks[0].draws);
      assert !ShouldSwitch(s, ticks[0].now);
      assert ticks[0].draws[ArrivalDraw(p, d)] < VehicleArrivalRate;
      assert s1.vehicleQueues.Count(d) == Min(VehicleCap, s.vehicleQueues.Count(d) + 1);
      RestWithinGreen(s, ticks);
      RestDraws(ticks, ArrivalDraw(p, d), VehicleArrivalRate);
      RedQueueFills(s1, ticks[1..], d);
    }
  }

  // ---------------------------------------------------------------------
  // Properties of the green-time policy

  lemma MulMonotone(x: real, y: real, t: real)
    requires x <= y && t > 0.0
    ensures x * t <= y * t
  {
  }

  lemma MulStrictMonotone(x: real, y: real, t: real)
    requires x < y && t > 0.0
    ensures x * t < y * t
  {
  }

  lemma HalfShareThreshold(r: real, t: real, a: real)
    requires t > 0.0 && (r - 15.0) * t == 30.0 * a
    ensures r >= 30.0 <==> t <= 2.0 * a
  {
    if r >= 30.0 {
      MulMonotone(15.0, r - 15.0, t);
    } else {
      MulStrictMonotone(r - 15.0, 15.0, t);
    }
  }

  lemma ProportionalOrder(rv: real, tv: real, av: real, rw: real, tw: real, aw: real)
    requires tv > 0.0 && (rv - 15.0) * tv == 30.0 * av
    requires tw > 0.0 && (rw - 15.0) * tw == 30.0 * aw
    requires av * tw <= aw * tv
    ensures rv <= rw
  {
    var k := tv * tw;
    MulStrictMonotone(0.0, tv, tw);
    assert (rv - 15.0) * k == 30.0 * av * tw;
    assert (rw - 15.0) * k == 30.0 * aw * tv;
    if rv > rw {
      MulStrictMonotone(rw - 15.0, rv - 15.0, k);
    }
  }

  /** The two phases' budgets, computed from the same queues, always add up
      to min + max: the extendable 30 seconds are split between them. */
  lemma GreenBudgetsSplit(v: Queues)
    requires NonNegative(v) && TotalDensity(v) > 0
    ensures NextGreenDuration(Phase1, v) + NextGreenDuration(Phase2, v) == MinGreenTime + MaxGreenTime
  {
    GreenProportional(Phase1, v);
    GreenProportional(Phase2, v);
    SharesAddUp(NextGreenDuration(Phase1, v) - MinGreenTime, NextGreenDuration(Phase2, v) - MinGreenTime,
      PhaseDensity(Phase1, v) as real, PhaseDensity(Phase2, v) as real, TotalDensity(v) as real);
  }

  /** Two extensions proportional to two shares that make up the whole add
      up to the whole extension. */
  lemma SharesAddUp(x1: real, x2: real, a1: real, a2: real, t: real)
    requires t > 0.0 && a1 + a2 == t
    requires x1 * t == (MaxGreenTime - MinGreenTime) * a1
    requires x2 * t == (MaxGreenTime - MinGreenTime) * a2
    ensures x1 + x2 == MaxGreenTime - MinGreenTime
  {
    var k := MaxGreenTime - MinGreenTime;
    calc {
      (x1 + x2) * t;
    == { SumOfProducts(x1, x2, t); }
      x1 * t + x2 * t;
    ==
      k * a1 + k * a2;
    == { SumOfProducts(a1, a2, k); }
      k * t;
    }
    MulCancel(x1 + x2, k, t);
  }

  lemma SumOfProducts(x: real, y: real, t: real)
    ensures x * t + y * t == (x + y) * t
  {
  }

  lemma MulCancel(x: real, y: real, t: real)
    requires t > 0.0 && x * t == y * t
    ensures x == y
  {
    if x < y {
      MulStrictMonotone(x, y, t);
    } else if y < x {
      MulStrictMonotone(y, x, t);
    }
  }

  /** The phase holding at least half of the queued vehicles gets at least
      the midpoint budget of 30 seconds, and only such a phase does. */
  lemma HeavierPhaseLongerGreen(p: Phase, v: Queues)
    requires NonNegative(v) && TotalDensity(v) > 0
    ensures NextGreenDuration(p, v) >= 30.0 <==> 2 * PhaseDensity(p, v) >= TotalDensity(v)
  {
    var t, a := TotalDensity(v) as real, PhaseDensity(p, v) as real;
    GreenProportional(p, v);
    HalfShareThreshold(NextGreenDuration(p, v), t, a);
  }

  /** The budget is monotone in the new phase's share of the queued
      vehicles: a larger share never earns a shorter green. */
  lemma GreenDurationMonotone(p: Phase, v: Queues, w: Queues)
    requires NonNegative(v) && TotalDensity(v) > 0
    requires NonNegative(w) && TotalDensity(w) > 0
    requires PhaseDensity(p, v) * TotalDensity(w) <= PhaseDensity(p, w) * TotalDensity(v)
    ensures NextGreenDuration(p, v) <= NextGreenDuration(p, w)
  {
    var tv, tw := TotalDensity(v) as real, TotalDensity(w) as real;
    var av, aw := PhaseDensity(p, v) as real, PhaseDensity(p, w) as real;
    assert av * tw <= aw * tv;
    GreenProportional(p, v);
    GreenProportional(p, w);
    ProportionalOrder(NextGreenDuration(p, v), tv, av, NextGreenDuration(p, w), tw, aw);
  }

  // ---------------------------------------------------------------------
  // Snapshots

  /** The number of vehicles a snapshot reports for direction `d`. */
  function ReportedVehicles(r: TrafficStateResponse, d: Direction): int {
    match d
    case North => r.vehiclesNorth
    case South => r.vehiclesSouth
    case East => r.vehiclesEast
    case West => r.vehiclesWest
  }

  function ReportedPedestrians(r: TrafficStateResponse, d: Direction): int {
    match d
    case North => r.pedestriansNorth
    case South => r.pedestriansSouth
    case East => r.pedestriansEast
    case West => r.pedestriansWest
  }

  /** Whole seconds the current phase has been green at `now`
      (`Math.floor` of the elapsed milliseconds over 1000). */
  function CurrentGreenTime(s: SimState, now: int): (r: int)
    ensures r * MillisPerSecond <= now - s.phaseStartTime < (r + 1) * MillisPerSecond
  {
    (now - s.phaseStartTime) / MillisPerSecond
  }

  /** `generateTrafficState`: the snapshot published each tick. */
  function GenerateTrafficState(s: SimState, now: int): (r: TrafficStateResponse)
    ensures r.timeStep == s.timeStep && r.currentPhase == s.currentPhase
    ensures r.calculatedGreenTime == s.greenDuration
    ensures forall d :: ReportedVehicles(r, d) == s.vehicleQueues.Count(d)
    ensures forall d :: ReportedPedestrians(r, d) == s.pedestrianQueues.Count(d)
    ensures r.currentGreenTime * MillisPerSecond <= now - s.phaseStartTime < (r.currentGreenTime + 1) * MillisPerSecond
    ensures r.phase1Density * DensityScale == PhaseDensity(Phase1, s.vehicleQueues) as real
    ensures r.phase2Density * DensityScale == PhaseDensity(Phase2, s.vehicleQueues) as real
  {
    var v, q := s.vehicleQueues, s.pedestrianQueues;
    TrafficStateResponse(
      timeStep := s.timeStep,
      vehiclesNorth := v.north,
      vehiclesSouth := v.south,
      vehiclesEast := v.east,
      vehiclesWest := v.west,
      pedestriansNorth := q.north,
      pedestriansSouth := q.south,
      pedestriansEast := q.east,
      pedestriansWest := q.west,
      currentPhase := s.currentPhase,
      currentGreenTime := CurrentGreenTime(s, now),
      calculatedGreenTime := s.greenDuration,
      phase1Density := (v.north + v.south) as real / DensityScale,
      phase2Density := (v.east + v.west) as real / DensityScale)
  }

  /** The light that vehicles and pedestrians at direction `d` see. */
  function LightFor(r: TrafficLightStatus, d: Direction): DirectionLight {
    if d == North || d == South then r.northSouth else r.eastWest
  }

  /** `generateTrafficLights`: the signal view published each tick. */
  function GenerateTrafficLights(s: SimState, now: int): (r: TrafficLightStatus)
    ensures r.simulationId == MockSimulationId && r.timeStep == s.timeStep
    ensures forall d :: LightFor(r, d).color == (if GreenFor(s.currentPhase, d) then Green else Red)
    ensures forall d :: LightFor(r, d).pedestrianCrossing <==> LightFor(r, d).color == Red
    ensures r.currentGreenTime == GenerateTrafficState(s, now).currentGreenTime
    ensures r.remainingGreenTime >= 0.0
    ensures r.remainingGreenTime > 0.0 <==> (r.currentGreenTime as real) < s.greenDuration
    ensures r.remainingGreenTime > 0.0 ==> r.currentGreenTime as real + r.remainingGreenTime == s.greenDuration
    ensures r.currentGreenTime >= 0 && s.greenDuration >= 0.0 ==> r.remainingGreenTime <= s.greenDuration
    ensures r.northSouth.duration == r.remainingGreenTime && r.eastWest.duration == r.remainingGreenTime
    ensures r.nextPhaseCountdown == r.remainingGreenTime
    ensures r.northSouthDensity == GenerateTrafficState(s, now).phase1Density
    ensures r.eastWestDensity == GenerateTrafficState(s, now).phase2Density
  {
    var currentGreenTime := CurrentGreenTime(s, now);
    var remainingGreenTime := RealMax(0.0, s.greenDuration - currentGreenTime as real);
    var v := s.vehicleQueues;
    TrafficLightStatus(
      simulationId := MockSimulationId,
      timeStep := s.timeStep,
      northSouth := DirectionLight(
        if s.currentPhase == Phase1 then Green else Red, remainingGreenTime, s.currentPhase == Phase2),
      eastWest := DirectionLight(
        if s.currentPhase == Phase2 then Green else Red, remainingGreenTime, s.currentPhase == Phase1),
      currentGreenTime := currentGreenTime,
      remainingGreenTime := remainingGreenTime,
      nextPhaseCountdown := remainingGreenTime,
      northSouthDensity := (v.north + v.south) as real / DensityScale,
      eastWestDensity := (v.east + v.west) as real / DensityScale)
  }

  /** Exactly one pair of directions is green and the other red; no light
      is ever yellow. */
  lemma OneGreenOneRed(s: SimState, now: int)
    ensures var r := GenerateTrafficLights(s, now);
      (r.northSouth.color == Green && r.eastWest.color == Red) !=
      (r.northSouth.color == Red && r.eastWest.color == Green)
    ensures var r := GenerateTrafficLights(s, now);
      r.northSouth.color != Yellow && r.eastWest.color != Yellow
  {
    var r := GenerateTrafficLights(s, now);
    assert LightFor(r, North) == r.northSouth && LightFor(r, East) == r.eastWest;
  }

  /** Right after a tick, read at the same clock value, the published
      countdown is positive: either the phase did not switch, so its budget
      is not used up, or it just switched and its budget starts afresh. */
  lemma {:induction false} CountdownPositiveAfterTick(s: SimState, now: int, u: seq<real>)
    requires Inv(s) && |u| == DrawsPerTick
    ensures GenerateTrafficLights(Tick(s, now, u), now).remainingGreenTime > 0.0
  {
    var r := Tick(s, now, u);
    var c := CurrentGreenTime(r, now);
    if ShouldSwitch(s, now) {
      assert r.phaseStartTime == now;
      assert c == 0;
    } else {
      assert r.phaseStartTime == s.phaseStartTime && r.greenDuration == s.greenDuration;
      var e := PhaseElapsed(s, now);
      assert e < s.greenDuration;
      assert c * 1000 <= now - s.phaseStartTime;
      assert (c as real) * 1000.0 <= e * 1000.0;
      assert c as real <= e;
    }
  }

  /** After a tick that advanced the queues, every direction whose light
      shows a pedestrian crossing has an empty pedestrian queue. */
  lemma CrossingQueuesEmptyAfterTick(s: SimState, now: int, u: seq<real>)
    requires |u| == DrawsPerTick && !ShouldSwitch(s, now)
    ensures var r := Tick(s, now, u);
      forall d :: LightFor(GenerateTrafficLights(r, now), d).pedestrianCrossing ==> r.pedestrianQueues.Count(d) == 0
  {
  }

  /** One tick's samples: an arrival north and no other event. */
  const NorthArrivalOnly: seq<real> := [0.0, 0.9, 0.9, 0.9, 0.9, 0.9, 0.9, 0.9]

  /** A green direction's queue is not capped at the vehicle capacity. From
      the initial state (5 vehicles north), eleven ticks one second apart,
      all within the first 30-second green, each with an arrival north and
      no service there, leave 16 vehicles north. */
  lemma ServicedQueueCanPassCapacity()
    ensures var ticks := seq(11, i => TickInput(MillisPerSecond * (i + 1), NorthArrivalOnly));
      WellFormed(ticks) && Run(Initial(0), ticks).vehicleQueues.north == VehicleCap + 1
  {
    var ticks := seq(11, i => TickInput(MillisPerSecond * (i + 1), NorthArrivalOnly));
    var s := Initial(0);
    assert WellFormed(ticks);
    forall i | 0 <= i < |ticks| ensures !ShouldSwitch(s, ticks[i].now) {
      assert ticks[i].now <= 11000;
    }
    GreenQueueGrows(s, ticks, North);
    assert Run(s, ticks).vehicleQueues.Count(North) == 16;
  }
}
