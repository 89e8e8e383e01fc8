/**
 * One simulated day (main.py, run_day): EVs arrive, features are recorded,
 * an allocator decides, the physics step delivers energy to the chosen EVs
 * and charges its cost, EVs leaving with unmet demand are penalised, and
 * departed EVs are dropped. Prices, the penalty and the service level are
 * the constants and formulas of main.py.
 */
module Simulation {
  import opened Entities
  import Features
  import Heuristics
  import Solver

  const HORIZON: int := 96
  const TAU: int := 15
  const PENALTY: real := 200.0
  /** An EV leaving with more than this many kWh still needed is penalised. */
  const PENALTY_THRESHOLD: real := 0.1
  const PEAK_PRICE: real := 0.50
  const BASE_PRICE: real := 0.15

  /** PRICES[t]: the peak tariff from 17:00 to 20:00, which is steps 68 to 79 of the 15-minute day. */
  function Price(t: int): (p: real)
    ensures p == if 68 <= t < 80 then PEAK_PRICE else BASE_PRICE
  {
    var hour := (t * 15) as real / 60.0;
    assert hour == t as real / 4.0;
    if 17.0 <= hour < 20.0 then PEAK_PRICE else BASE_PRICE
  }

  // ---------------------------------------------------------------------------
  // Vehicle and charger invariants of the step.
  // ---------------------------------------------------------------------------

  /** Same vehicles in the same order: only the need and the assigned charger may differ. */
  ghost predicate SameVehicles(a: seq<EV>, b: seq<EV>)
  {
    |a| == |b| &&
    forall i :: 0 <= i < |a| ==>
      a[i].id == b[i].id && a[i].arrivalTime == b[i].arrivalTime && a[i].departureTime == b[i].departureTime &&
      a[i].requiredEnergy == b[i].requiredEnergy && a[i].assignedConnectorId == b[i].assignedConnectorId
  }

  /** Same chargers in the same order: only the occupancy map may differ. */
  ghost predicate SameChargers(a: seq<Charger>, b: seq<Charger>)
  {
    |a| == |b| &&
    forall i :: 0 <= i < |a| ==>
      a[i].id == b[i].id && a[i].maxPower == b[i].maxPower &&
      a[i].numConnectors == b[i].numConnectors && a[i].isLevel3 == b[i].isLevel3
  }

  /** No charger has a negative max_power. */
  ghost predicate PowersNonNegative(chargers: seq<Charger>)
  {
    forall i :: 0 <= i < |chargers| ==> chargers[i].maxPower >= 0.0
  }

  ghost predicate NeedsNonNegative(evs: seq<EV>)
  {
    forall i :: 0 <= i < |evs| ==> evs[i].currentEnergyNeeded >= 0.0
  }

  /** Pointwise, no EV of a needs more than the same EV of b. */
  ghost predicate NeedsBelow(a: seq<EV>, b: seq<EV>)
  {
    |a| == |b| && forall i :: 0 <= i < |a| ==> a[i].currentEnergyNeeded <= b[i].currentEnergyNeeded
  }

  /** The cost of energy kWh at price per kWh. */
  function Charge(price: real, energy: real): real
  {
    price * energy
  }

  /** The charge of step t written per tariff, 0.50 in the peak and 0.15 otherwise, so that it is linear in the energy. */
  function Tariff(t: int, energy: real): real
  {
    if 68 <= t < 80 then 0.50 * energy else 0.15 * energy
  }

  /** The per-tariff charge is step_e * PRICES[t]. */
  lemma TariffCharge(t: int, energy: real)
    ensures Tariff(t, energy) == Charge(Price(t), energy)
  {
  }

  /** Charging two amounts of energy costs the sum of their charges. */
  lemma ChargeAdditive(price: real, a: real, b: real, total: real, ca: real, cb: real)
    requires total == a + b && ca == Charge(price, a) && cb == Charge(price, b)
    ensures Charge(price, total) == ca + cb
  {
  }

  lemma SameChargersTransitive(a: seq<Charger>, b: seq<Charger>, c: seq<Charger>)
    requires SameChargers(a, b) && SameChargers(b, c)
    ensures SameChargers(a, c)
  {
  }

  /** The `next(...)` lookups of both ids of the decision succeed. */
  predicate Known(evs: seq<EV>, chargers: seq<Charger>, d: Decision)
  {
    FirstCharger(chargers, d.chargerId).Some? && FirstEV(evs, d.evId).Some?
  }

  lemma {:induction false} FirstEVOfSame(a: seq<EV>, b: seq<EV>, id: int)
    requires SameVehicles(a, b)
    ensures FirstEV(a, id) == FirstEV(b, id)
  {
    if a != [] {
      assert SameVehicles(a[1..], b[1..]) by {
        forall i | 0 <= i < |a[1..]| ensures a[1..][i] == a[i + 1] && b[1..][i] == b[i + 1] {}
      }
      FirstEVOfSame(a[1..], b[1..], id);
    }
  }

  lemma {:induction false} FirstChargerOfSame(a: seq<Charger>, b: seq<Charger>, id: int)
    requires SameChargers(a, b)
    ensures FirstCharger(a, id) == FirstCharger(b, id)
  {
    if a != [] {
      assert SameChargers(a[1..], b[1..]) by {
        forall i | 0 <= i < |a[1..]| ensures a[1..][i] == a[i + 1] && b[1..][i] == b[i + 1] {}
      }
      FirstChargerOfSame(a[1..], b[1..], id);
    }
  }

  /** Replacing one EV changes the summed need by the difference of its need. */
  lemma {:induction false} SumNeededUpdate(evs: seq<EV>, i: int, e: EV)
    requires 0 <= i < |evs|
    ensures Features.SumNeeded(evs[i := e]) ==
      Features.SumNeeded(evs) - evs[i].currentEnergyNeeded + e.currentEnergyNeeded
  {
    if i > 0 {
      SumNeededUpdate(evs[1..], i - 1, e);
      assert evs[i := e][1..] == evs[1..][i - 1 := e];
    }
  }

  lemma {:induction false} SumNeededAppend(evs: seq<EV>, more: seq<EV>)
    ensures Features.SumNeeded(evs + more) == Features.SumNeeded(evs) + Features.SumNeeded(more)
  {
    if evs != [] {
      assert (evs + more)[0] == evs[0];
      assert (evs + more)[1..] == evs[1..] + more;
      SumNeededAppend(evs[1..], more);
    } else {
      assert evs + more == more;
    }
  }

  // ---------------------------------------------------------------------------
  // Applying the decisions (main.py:238-246).
  // ---------------------------------------------------------------------------

  /** The accumulating state of the decision loop: vehicles, chargers and step_e. */
  datatype StepState = StepState(evs: seq<EV>, chargers: seq<Charger>, energy: real)

  /** energy = min(rate * tau/60, need) */
  function EnergyFor(e: EV, rate: real): (energy: real)
    ensures energy <= e.currentEnergyNeeded
    ensures rate >= 0.0 && e.currentEnergyNeeded >= 0.0 ==> energy >= 0.0
  {
    Heuristics.RealMin(StepEnergy(rate, TAU), e.currentEnergyNeeded)
  }

  /**
   * One decision: connect the EV, deliver min(rate * tau/60, need) to it, record its charger,
   * and add the energy to the step total. A decision naming an unknown charger or EV leaves
   * the state alone; run_day never produces one (the source would raise there).
   */
  function ApplyDecision(s: StepState, d: Decision): (r: StepState)
    ensures SameVehicles(r.evs, s.evs) && SameChargers(r.chargers, s.chargers)
    ensures Features.SumNeeded(r.evs) + r.energy == Features.SumNeeded(s.evs) + s.energy
  {
    match FirstCharger(s.chargers, d.chargerId)
    case None => s
    case Some(ci) =>
      match FirstEV(s.evs, d.evId)
      case None => s
      case Some(ei) =>
        var e := s.evs[ei];
        var energy := EnergyFor(e, d.chargeRate);
        var served := e.(currentEnergyNeeded := e.currentEnergyNeeded - energy, assignedChargerId := Some(d.chargerId));
        SumNeededUpdate(s.evs, ei, served);
        StepState(s.evs[ei := served],
                  s.chargers[ci := Connect(s.chargers[ci], d.connectorId, d.evId)],
                  s.energy + energy)
  }

  /** With a non-negative rate the served EV's need falls by the energy delivered and stays non-negative. */
  lemma ApplyDecisionMonotone(s: StepState, d: Decision)
    requires NeedsNonNegative(s.evs) && d.chargeRate >= 0.0
    ensures var r := ApplyDecision(s, d);
      NeedsNonNegative(r.evs) && NeedsBelow(r.evs, s.evs) && r.energy >= s.energy
  {
  }

  /** A known decision connects the EV to the first charger with that id, records the charger on the EV, and delivers min(rate * tau/60, need). */
  lemma ApplyDecisionServes(s: StepState, d: Decision)
    requires Known(s.evs, s.chargers, d)
    ensures var r := ApplyDecision(s, d);
      var ei := FirstEV(s.evs, d.evId).value;
      var ci := FirstCharger(s.chargers, d.chargerId).value;
      r.evs[ei].assignedChargerId == Some(d.chargerId) &&
      r.evs[ei].currentEnergyNeeded == s.evs[ei].currentEnergyNeeded - EnergyFor(s.evs[ei], d.chargeRate) &&
      r.chargers[ci] == Connect(s.chargers[ci], d.connectorId, d.evId) &&
      r.energy == s.energy + EnergyFor(s.evs[ei], d.chargeRate)
    ensures var r := ApplyDecision(s, d);
      var ei := FirstEV(s.evs, d.evId).value;
      var ci := FirstCharger(s.chargers, d.chargerId).value;
      |r.evs| == |s.evs| && |r.chargers| == |s.chargers| &&
      (forall i :: 0 <= i < |s.evs| && i != ei ==> r.evs[i] == s.evs[i]) &&
      (forall j :: 0 <= j < |s.chargers| && j != ci ==> r.chargers[j] == s.chargers[j])
  {
  }

  /** The decision loop as a fold. */
  function ApplyAll(s: StepState, decs: seq<Decision>): (r: StepState)
    ensures SameVehicles(r.evs, s.evs) && SameChargers(r.chargers, s.chargers)
    ensures Features.SumNeeded(r.evs) + r.energy == Features.SumNeeded(s.evs) + s.energy
  {
    if decs == [] then s
    else
      ApplyDecision(ApplyAll(s, decs[..|decs| - 1]), decs[|decs| - 1])
  }

  /** With non-negative rates, needs only fall, stay non-negative, and the step energy only grows. */
  lemma {:induction false} ApplyAllMonotone(s: StepState, decs: seq<Decision>)
    requires NeedsNonNegative(s.evs) && forall m :: 0 <= m < |decs| ==> decs[m].chargeRate >= 0.0
    ensures var r := ApplyAll(s, decs);
      NeedsNonNegative(r.evs) && NeedsBelow(r.evs, s.evs) && r.energy >= s.energy
  {
    if decs != [] {
      var init := decs[..|decs| - 1];
      assert forall m :: 0 <= m < |init| ==> init[m] == decs[m];
      ApplyAllMonotone(s, init);
      ApplyDecisionMonotone(ApplyAll(s, init), decs[|decs| - 1]);
    }
  }

  /** The per-step reset of every charger's occupancy map (main.py:236). */
  function ResetAll(chargers: seq<Charger>): (r: seq<Charger>)
    ensures SameChargers(r, chargers)
    ensures forall i :: 0 <= i < |r| ==> r[i].connectedEvs == map[] && AvailableConnectors(r[i]) == r[i].numConnectors
  {
    seq(|chargers|, i requires 0 <= i < |chargers| => ResetConnections(chargers[i]))
  }

  // ---------------------------------------------------------------------------
  // Departure penalty and removal of departed EVs (main.py:249-257).
  // ---------------------------------------------------------------------------

  function PenaltyTerm(e: EV, t: int): real
  {
    if e.departureTime == t && e.currentEnergyNeeded > PENALTY_THRESHOLD then e.currentEnergyNeeded * PENALTY else 0.0
  }

  /** Sum of need * 200 over the EVs leaving at step t with more than 0.1 kWh unmet. */
  function Penalty(evs: seq<EV>, t: int): (p: real)
    ensures p >= 0.0 <== NeedsNonNegative(evs)
    ensures NeedsNonNegative(evs) ==>
      (p == 0.0 <==> forall i :: 0 <= i < |evs| ==>
        !(evs[i].departureTime == t && evs[i].currentEnergyNeeded > PENALTY_THRESHOLD))
  {
    if evs == [] then 0.0
    else
      var init := evs[..|evs| - 1];
      assert NeedsNonNegative(evs) ==> NeedsNonNegative(init);
      assert forall i :: 0 <= i < |init| ==> init[i] == evs[i];
      Penalty(init, t) + PenaltyTerm(evs[|evs| - 1], t)
  }

  /** A single EV leaving with 5 kWh unmet costs 1000 extra. */
  lemma PenaltyExample()
    ensures Penalty([NewEV(1, 0, 32, 40.0, 5.0)], 32) == 1000.0
  {
    assert [NewEV(1, 0, 32, 40.0, 5.0)][..0] == [];
  }

  /** `[e for e in evs if e.departure_time > t]` */
  function Survivors(evs: seq<EV>, t: int): (r: seq<EV>)
    ensures forall i :: 0 <= i < |r| ==> r[i].departureTime > t
    ensures NeedsNonNegative(evs) ==> NeedsNonNegative(r) && Features.SumNeeded(r) <= Features.SumNeeded(evs)
  {
    if evs == [] then []
    else
      var rest := Survivors(evs[1..], t);
      assert NeedsNonNegative(evs) ==> NeedsNonNegative(evs[1..]) by {
        if NeedsNonNegative(evs) {
          forall i | 0 <= i < |evs[1..]| ensures evs[1..][i].currentEnergyNeeded >= 0.0 {
            assert evs[1..][i] == evs[i + 1];
          }
        }
      }
      if evs[0].departureTime > t then [evs[0]] + rest else rest
  }

  /** An EV survives step t exactly when it was present and departs after t. */
  lemma {:induction false} SurvivorsMembers(evs: seq<EV>, t: int)
    ensures forall e :: e in Survivors(evs, t) <==> e in evs && e.departureTime > t
  {
    if evs != [] {
      SurvivorsMembers(evs[1..], t);
      assert forall e :: e in evs <==> e == evs[0] || e in evs[1..];
    }
  }

  /** The filter splits over concatenation, so it keeps order and multiplicity. */
  lemma {:induction false} SurvivorsAppend(a: seq<EV>, b: seq<EV>, t: int)
    ensures Survivors(a + b, t) == Survivors(a, t) + Survivors(b, t)
  {
    if a == [] {
      assert a + b == b;
    } else {
      assert (a + b)[1..] == a[1..] + b;
      SurvivorsAppend(a[1..], b, t);
    }
  }

  /** A single EV survives exactly when it departs after step t. */
  lemma SurvivorsSingleton(e: EV, t: int)
    ensures Survivors([e], t) == if e.departureTime > t then [e] else []
  {
    assert [e][1..] == [];
  }

  /** Keeping exactly the EVs that depart later keeps them in their previous order. */
  lemma {:induction false} SurvivorsKeepAll(evs: seq<EV>, t: int)
    requires forall i :: 0 <= i < |evs| ==> evs[i].departureTime > t
    ensures Survivors(evs, t) == evs
  {
    if evs != [] {
      SurvivorsKeepAll(evs[1..], t);
      assert evs == [evs[0]] + evs[1..];
    }
  }

  // ---------------------------------------------------------------------------
  // The physics step (main.py:234-257).
  // ---------------------------------------------------------------------------

  /** The reset loop `for c in chargers: c.connected_evs = {}`. */
  method ResetChargers(chargers0: seq<Charger>) returns (chargers: seq<Charger>)
    ensures chargers == ResetAll(chargers0)
  {
    chargers := chargers0;
    var j := 0;
    while j < |chargers|
      invariant 0 <= j <= |chargers| == |chargers0|
      invariant forall i :: 0 <= i < j ==> chargers[i] == ResetConnections(chargers0[i])
      invariant forall i :: j <= i < |chargers| ==> chargers[i] == chargers0[i]
    {
      chargers := chargers[j := ResetConnections(chargers[j])];
      j := j + 1;
    }
  }

  /** One pass of the decision loop body: connect, deliver, record the charger; returns the energy delivered and its cost. */
  method ApplyOne(s: StepState, d: Decision, price: real) returns (r: StepState, energy: real, cost: real)
    requires Known(s.evs, s.chargers, d)
    ensures r == ApplyDecision(s, d) && r.energy == s.energy + energy && cost == Charge(price, energy)
  {
    var ci := FirstCharger(s.chargers, d.chargerId).value;
    var chargers := s.chargers[ci := Connect(s.chargers[ci], d.connectorId, d.evId)];
    var ei := FirstEV(s.evs, d.evId).value;
    energy := Heuristics.RealMin(StepEnergy(d.chargeRate, TAU), s.evs[ei].currentEnergyNeeded);
    var evs := s.evs[ei := s.evs[ei].(currentEnergyNeeded := s.evs[ei].currentEnergyNeeded - energy)];
    evs := evs[ei := evs[ei].(assignedChargerId := Some(d.chargerId))];
    r := StepState(evs, chargers, s.energy + energy);
    cost := energy * price;
  }

  /** The decision loop's pass for decisions[m]: the state follows the fold and step_c stays price times step_e. */
  method ApplyNext(start: StepState, decs: seq<Decision>, m: int, r0: StepState, stepC0: real, price: real)
    returns (r: StepState, stepC: real)
    requires 0 <= m < |decs| && Known(start.evs, start.chargers, decs[m])
    requires r0 == ApplyAll(start, decs[..m]) && stepC0 == Charge(price, r0.energy)
    ensures r == ApplyAll(start, decs[..m + 1]) && stepC == Charge(price, r.energy)
  {
    FirstEVOfSame(r0.evs, start.evs, decs[m].evId);
    FirstChargerOfSame(r0.chargers, start.chargers, decs[m].chargerId);
    var energy, cost;
    r, energy, cost := ApplyOne(r0, decs[m], price);
    ChargeAdditive(price, r0.energy, energy, r.energy, stepC0, cost);
    stepC := stepC0 + cost;
    assert decs[..m + 1][..m] == decs[..m];
  }

  /**
   * The decision loop, updating the vehicles, the chargers, step_c and step_e in turn.
   * Each decision is charged energy * price, so step_c ends as price times step_e.
   */
  method ApplyDecisions(start: StepState, decs: seq<Decision>, price: real) returns (r: StepState, stepC: real)
    requires start.energy == 0.0
    requires forall m :: 0 <= m < |decs| ==> Known(start.evs, start.chargers, decs[m])
    ensures r == ApplyAll(start, decs)
    ensures stepC == Charge(price, r.energy)
  {
    r, stepC := start, 0.0;
    var m := 0;
    while m < |decs|
      invariant 0 <= m <= |decs|
      invariant r == ApplyAll(start, decs[..m])
      invariant stepC == Charge(price, r.energy)
    {
      r, stepC := ApplyNext(start, decs, m, r, stepC, price);
      m := m + 1;
    }
    assert decs[..m] == decs;
  }

  /** The departure loop: add need * 200 for each EV leaving now with more than 0.1 kWh unmet. */
  method AddPenalties(evs: seq<EV>, t: int, stepC0: real) returns (stepC: real)
    ensures stepC == stepC0 + Penalty(evs, t)
  {
    stepC := stepC0;
    var p := 0;
    while p < |evs|
      invariant 0 <= p <= |evs|
      invariant stepC == stepC0 + Penalty(evs[..p], t)
    {
      if evs[p].departureTime == t && evs[p].currentEnergyNeeded > PENALTY_THRESHOLD {
        stepC := stepC + evs[p].currentEnergyNeeded * PENALTY;
      }
      assert evs[..p + 1][..p] == evs[..p];
      p := p + 1;
    }
    assert evs[..p] == evs;
  }

  /** The whole step: reset, apply the decisions, add penalties, drop departed EVs. */
  method PhysicsStep(evs0: seq<EV>, chargers0: seq<Charger>, decs: seq<Decision>, t: int, price: real)
    returns (evs: seq<EV>, chargers: seq<Charger>, stepC: real, stepE: real)
    requires forall m :: 0 <= m < |decs| ==> Known(evs0, chargers0, decs[m])
    ensures var s := ApplyAll(StepState(evs0, ResetAll(chargers0), 0.0), decs);
      chargers == s.chargers && stepE == s.energy && stepC == Charge(price, s.energy) + Penalty(s.evs, t) &&
      evs == Survivors(s.evs, t)
  {
    var reset := ResetChargers(chargers0);
    forall m | 0 <= m < |decs| ensures Known(evs0, reset, decs[m]) {
      FirstChargerOfSame(reset, chargers0, decs[m].chargerId);
    }
    var s, cost := ApplyDecisions(StepState(evs0, reset, 0.0), decs, price);
    stepC := AddPenalties(s.evs, t, cost);
    chargers, stepE := s.chargers, s.energy;
    evs := Survivors(s.evs, t);
  }

  /** A step conserves energy from a zero start: needs only fall and stay non-negative, and the step energy is what they lost. */
  lemma StepFacts(start: StepState, decs: seq<Decision>)
    requires start.energy == 0.0
    requires NeedsNonNegative(start.evs) && forall m :: 0 <= m < |decs| ==> decs[m].chargeRate >= 0.0
    ensures var s := ApplyAll(start, decs);
      Features.SumNeeded(s.evs) == Features.SumNeeded(start.evs) - s.energy &&
      s.energy >= 0.0 && NeedsNonNegative(s.evs)
  {
    ApplyAllMonotone(start, decs);
  }

  // ---------------------------------------------------------------------------
  // Service level and the day loop.
  // ---------------------------------------------------------------------------

  /** sl = total_energy / total_req * 100, or 100 when nothing was required. */
  function ServiceLevel(totalEnergy: real, totalReq: real): (sl: real)
    ensures totalReq <= 0.0 ==> sl == 100.0
    ensures totalReq > 0.0 && 0.0 <= totalEnergy <= totalReq ==> 0.0 <= sl <= 100.0
    ensures totalReq > 0.0 ==> (sl == 100.0 <==> totalEnergy == totalReq)
  {
    if totalReq > 0.0 then totalEnergy / totalReq * 100.0 else 100.0
  }

  /** get_base_scenario */
  function BaseChargers(): (c: seq<Charger>)
    ensures |c| == 2 && PowersNonNegative(c)
  {
    [NewCharger(1, 22.0, 2, false), NewCharger(2, 50.0, 1, true)]
  }

  function BaseEVs(): (e: seq<EV>)
    ensures NeedsNonNegative(e) && Features.SumNeeded(e) == 100.0
  {
    [NewEV(1, 0, 32, 40.0, 40.0), NewEV(2, 0, 90, 60.0, 60.0)]
  }

  function RequiredOf(evs: seq<EV>): real
  {
    if evs == [] then 0.0 else evs[0].requiredEnergy + RequiredOf(evs[1..])
  }

  /**
   * The arrivals of step t: in training an EV with id len(evs)+100 when the coin came up
   * (random() < 0.15), leaving 35 steps later or at 96; in evaluation one EV at step 68.
   */
  function Arrivals(count: int, t: int, training: bool, coin: bool): (r: seq<EV>)
    ensures NeedsNonNegative(r) && Features.SumNeeded(r) == RequiredOf(r)
  {
    if training then
      (if coin then [NewEV(count + 100, t, if t + 35 <= 96 then t + 35 else 96, 30.0, 30.0)] else [])
    else if t == 68 then [NewEV(200, t, 92, 45.0, 45.0)]
    else []
  }

  function SumReals(s: seq<real>): real
  {
    if s == [] then 0.0 else SumReals(s[..|s| - 1]) + s[|s| - 1]
  }

  /** Appending a value adds it to the sum. */
  lemma SumRealsSnoc(s: seq<real>, x: real)
    ensures SumReals(s + [x]) == SumReals(s) + x
  {
    assert (s + [x])[..|s|] == s;
  }

  /** What run_day returns (the CPU-time average is not modelled). */
  datatype DayReport = DayReport(cost: real, serviceLevel: real, load: seq<real>,
                                 feats: seq<seq<real>>, stepCosts: seq<real>)

  /** The allocator call of main.py:227-230; each decision names a known charger and EV and has a non-negative rate. */
  method Decide(strategy: string, evs: seq<EV>, chargers: seq<Charger>, t: int, zetas: seq<real>)
    returns (decs: seq<Decision>)
    requires NeedsNonNegative(evs) && PowersNonNegative(chargers)
    requires strategy == "ADP" ==> |zetas| >= 6
    ensures forall m :: 0 <= m < |decs| ==> Known(evs, chargers, decs[m]) && decs[m].chargeRate >= 0.0
    ensures strategy != "ADP" ==> decs == Heuristics.Greedy(evs, chargers, strategy, TAU)
  {
    if strategy == "ADP" {
      var objective;
      decs, objective := Solver.SolveDecisionModel(evs, chargers, t, Price(t), zetas, TAU);
    } else {
      decs := Heuristics.SolveHeuristic(evs, chargers, strategy, TAU);
      Heuristics.GreedyRates(evs, chargers, strategy, TAU);
    }
  }

  /** Non-negative energy at a non-negative price costs a non-negative amount. */
  lemma ChargeNonNegative(price: real, energy: real)
    requires price >= 0.0 && energy >= 0.0
    ensures Charge(price, energy) >= 0.0
  {
  }

  // ---------------------------------------------------------------------------
  // The trace of a day: what each step saw, decided and left behind.
  // ---------------------------------------------------------------------------

  /**
   * One step of the day: the fleet after the step's arrivals, the chargers and the
   * allocator's decisions, then what the physics made of them: the state once the
   * decisions are applied, step_c, and the EVs still present after the step.
   */
  datatype StepTrace = StepTrace(evs: seq<EV>, chargers: seq<Charger>, decs: seq<Decision>,
                                 after: StepState, cost: real, left: seq<EV>)

  /** The allocator's answer to a state: known chargers and EVs, non-negative rates, and for a heuristic its greedy pairing. */
  ghost predicate Decided(strategy: string, evs: seq<EV>, chargers: seq<Charger>, decs: seq<Decision>)
  {
    (forall m :: 0 <= m < |decs| ==> Known(evs, chargers, decs[m]) && decs[m].chargeRate >= 0.0) &&
    (strategy != "ADP" ==> decs == Heuristics.Greedy(evs, chargers, strategy, TAU))
  }

  /** The physics of step t: occupancy reset, the decisions applied in order, the energy and the penalties charged, departed EVs dropped. */
  ghost predicate Physics(tr: StepTrace, t: int)
  {
    tr.after == ApplyAll(StepState(tr.evs, ResetAll(tr.chargers), 0.0), tr.decs) &&
    tr.cost == Tariff(t, tr.after.energy) + Penalty(tr.after.evs, t) &&
    tr.left == Survivors(tr.after.evs, t)
  }

  /** Every step of the trace was decided by the allocator and run through the physics. */
  ghost predicate Stepped(trace: seq<StepTrace>, strategy: string)
  {
    forall t {:trigger Physics(trace[t], t)} {:trigger Decided(strategy, trace[t].evs, trace[t].chargers, trace[t].decs)} ::
      0 <= t < |trace| ==> Physics(trace[t], t) && Decided(strategy, trace[t].evs, trace[t].chargers, trace[t].decs)
  }

  /** Step t + 1 starts from the EVs step t left and from its chargers, with the arrivals of step t + 1 appended. */
  ghost predicate Follows(tr: StepTrace, t: int, next: StepTrace, training: bool, coin: bool)
  {
    next.chargers == tr.after.chargers && next.evs == tr.left + Arrivals(|tr.left|, t + 1, training, coin)
  }

  /** The first step starts from the base scenario plus its arrivals, and every later step follows the one before. */
  ghost predicate Chained(trace: seq<StepTrace>, training: bool, coins: seq<bool>)
  {
    |trace| <= |coins| &&
    (|trace| > 0 ==>
      trace[0].evs == BaseEVs() + Arrivals(|BaseEVs()|, 0, training, coins[0]) && trace[0].chargers == BaseChargers()) &&
    forall t :: 0 <= t < |trace| - 1 ==> Follows(trace[t], t, trace[t + 1], training, coins[t + 1])
  }

  /** The fleet and chargers between steps: the base scenario before the first, afterwards what the last step left. */
  ghost predicate Between(trace: seq<StepTrace>, evs: seq<EV>, chargers: seq<Charger>)
  {
    if trace == [] then evs == BaseEVs() && chargers == BaseChargers()
    else evs == trace[|trace| - 1].left && chargers == trace[|trace| - 1].after.chargers
  }

  /** load_profile and the step costs are, step by step, the energy delivered and step_c of the trace. */
  ghost predicate Recorded(trace: seq<StepTrace>, load: seq<real>, stepCosts: seq<real>)
  {
    |load| == |trace| && |stepCosts| == |trace| &&
    forall t :: 0 <= t < |trace| ==> load[t] == trace[t].after.energy && stepCosts[t] == trace[t].cost
  }

  /** The feature vectors of the states the steps saw, in order. */
  ghost function FeatsOf(trace: seq<StepTrace>): (r: seq<seq<real>>)
    ensures |r| == |trace|
  {
    if trace == [] then []
    else
      var last := trace[|trace| - 1];
      FeatsOf(trace[..|trace| - 1]) + [Features.BasisFunctions(last.evs, last.chargers, |trace| - 1, TAU)]
  }

  /** total_req in evaluation once the arrivals of steps 0 .. n-1 have joined: the base demand plus theirs. */
  function RequiredUpTo(n: nat): real
  {
    if n == 0 then RequiredOf(BaseEVs()) else RequiredUpTo(n - 1) + RequiredOf(Arrivals(0, n - 1, false, false))
  }

  /** In evaluation the day requires the base 100 kWh, and 45 kWh more from step 68 on. */
  lemma {:induction false} RequiredUpToValue(n: nat)
    ensures RequiredUpTo(n) == if n <= 68 then 100.0 else 145.0
  {
    if n > 0 {
      RequiredUpToValue(n - 1);
      var arrivals := Arrivals(0, n - 1, false, false);
      if n - 1 == 68 {
        assert arrivals[1..] == [];
      } else {
        assert arrivals == [];
      }
    }
  }

  /** In a stepped trace, step t was decided by the allocator and run through the physics of step t. */
  lemma SteppedAt(trace: seq<StepTrace>, strategy: string, t: int)
    requires Stepped(trace, strategy) && 0 <= t < |trace|
    ensures Physics(trace[t], t) && Decided(strategy, trace[t].evs, trace[t].chargers, trace[t].decs)
  {
  }

  /** A decided step run through the physics extends the trace's steps. */
  lemma SteppedExtend(trace: seq<StepTrace>, tr: StepTrace, strategy: string)
    requires Stepped(trace, strategy)
    requires Physics(tr, |trace|) && Decided(strategy, tr.evs, tr.chargers, tr.decs)
    ensures Stepped(trace + [tr], strategy)
  {
    var n := trace + [tr];
    forall t | 0 <= t < |n| ensures Physics(n[t], t) && Decided(strategy, n[t].evs, n[t].chargers, n[t].decs) {
      if t < |trace| {
        assert n[t] == trace[t];
      } else {
        assert n[t] == tr;
      }
    }
  }

  /** A step that starts from what the trace left, plus its arrivals, extends the chain. */
  lemma ChainedExtend(trace: seq<StepTrace>, tr: StepTrace, training: bool, coins: seq<bool>, evs: seq<EV>)
    requires Chained(trace, training, coins) && |trace| < |coins|
    requires Between(trace, evs, tr.chargers)
    requires tr.evs == evs + Arrivals(|evs|, |trace|, training, coins[|trace|])
    ensures Chained(trace + [tr], training, coins)
  {
    var n := trace + [tr];
    forall t | 0 <= t < |n| - 1 ensures Follows(n[t], t, n[t + 1], training, coins[t + 1]) {
      if t < |trace| - 1 {
        assert n[t] == trace[t] && n[t + 1] == trace[t + 1];
      } else {
        assert n[t] == trace[|trace| - 1] && n[t + 1] == tr;
      }
    }
  }

  /** Recording a step's energy and cost extends the record of the trace. */
  lemma RecordedExtend(trace: seq<StepTrace>, load: seq<real>, stepCosts: seq<real>, tr: StepTrace)
    requires Recorded(trace, load, stepCosts)
    ensures Recorded(trace + [tr], load + [tr.after.energy], stepCosts + [tr.cost])
  {
  }

  /**
   * Decide and step once (main.py:227-257): the decisions are the allocator's, and the
   * new fleet, chargers, energy and cost are those of applying them to the reset chargers
   * (PhysicsStep). Hence the needs stay non-negative, the chargers keep their identity,
   * the energy is non-negative and does not exceed the demand that disappears, and the
   * step cost is at least price times energy.
   */
  method DayStep(strategy: string, zetas: seq<real>, evs0: seq<EV>, chargers0: seq<Charger>, t: int)
    returns (evs: seq<EV>, chargers: seq<Charger>, stepC: real, stepE: real, decs: seq<Decision>)
    requires strategy == "ADP" ==> |zetas| >= 6
    requires NeedsNonNegative(evs0) && PowersNonNegative(chargers0)
    ensures Decided(strategy, evs0, chargers0, decs)
    ensures var s := ApplyAll(StepState(evs0, ResetAll(chargers0), 0.0), decs);
      chargers == s.chargers && stepE == s.energy && stepC == Charge(Price(t), s.energy) + Penalty(s.evs, t) &&
      evs == Survivors(s.evs, t)
    ensures NeedsNonNegative(evs) && SameChargers(chargers, chargers0) && PowersNonNegative(chargers)
    ensures stepE >= 0.0 && Features.SumNeeded(evs) + stepE <= Features.SumNeeded(evs0)
    ensures stepC >= Charge(Price(t), stepE) >= 0.0
  {
    decs := Decide(strategy, evs0, chargers0, t, zetas);
    var start := StepState(evs0, ResetAll(chargers0), 0.0);
    StepFacts(start, decs);
    ghost var s := ApplyAll(start, decs);
    SameChargersTransitive(s.chargers, start.chargers, chargers0);
    evs, chargers, stepC, stepE := PhysicsStep(evs0, chargers0, decs, t, Price(t));
    ChargeNonNegative(Price(t), stepE);
  }

  /**
   * load_profile[t] = step_e, total_cost += step_c and total_energy += step_e; the ghost
   * loads mirror the filled part of load_profile. The totals stay the sums of the step
   * costs and loads, and every recorded step stays bounded.
   */
  method Record(load: array<real>, t: int, ghost loads0: seq<real>, stepCosts0: seq<real>, totalCost0: real,
                totalEnergy0: real, stepC: real, stepE: real)
    returns (ghost loads: seq<real>, stepCosts: seq<real>, totalCost: real, totalEnergy: real)
    requires 0 <= t < load.Length && load[..t] == loads0 && |stepCosts0| == t
    requires totalCost0 == SumReals(stepCosts0) && totalEnergy0 == SumReals(loads0)
    requires forall i :: 0 <= i < t ==> StepBounded(i, loads0[i], stepCosts0[i])
    requires StepBounded(t, stepE, stepC)
    modifies load
    ensures load[..] == old(load[..])[t := stepE]
    ensures loads == loads0 + [stepE] && load[..t + 1] == loads && stepCosts == stepCosts0 + [stepC]
    ensures totalCost == SumReals(stepCosts) && totalEnergy == SumReals(loads) && totalEnergy == totalEnergy0 + stepE
    ensures forall i :: 0 <= i <= t ==> StepBounded(i, loads[i], stepCosts[i])
  {
    load[t] := stepE;
    loads := loads0 + [stepE];
    assert load[..t + 1] == loads;
    stepCosts := stepCosts0 + [stepC];
    SumRealsSnoc(stepCosts0, stepC);
    SumRealsSnoc(loads0, stepE);
    totalCost := totalCost0 + stepC;
    totalEnergy := totalEnergy0 + stepE;
  }

  /** The features of the state at step t join the list when the day records them. */
  method Observe(record: bool, feats0: seq<seq<real>>, evs: seq<EV>, chargers: seq<Charger>, t: int)
    returns (feats: seq<seq<real>>)
    requires forall i :: 0 <= i < |feats0| ==> |feats0[i]| == 6 && feats0[i][0] == 1.0
    ensures feats == if record then feats0 + [Features.BasisFunctions(evs, chargers, t, TAU)] else feats0
    ensures forall i :: 0 <= i < |feats| ==> |feats[i]| == 6 && feats[i][0] == 1.0
  {
    feats := feats0;
    if record {
      feats := feats + [Features.BasisFunctions(evs, chargers, t, TAU)];
    }
  }

  /** The load of step t is non-negative and its cost is at least the price of that energy, itself non-negative. */
  predicate StepBounded(t: int, energy: real, cost: real)
  {
    energy >= 0.0 && cost >= Tariff(t, energy) >= 0.0
  }

  /** The arrivals of step t join the fleet; in evaluation their required energy joins total_req. */
  method Arrive(evs0: seq<EV>, t: int, training: bool, coin: bool, totalReq0: real, totalEnergy: real)
    returns (evs: seq<EV>, totalReq: real)
    requires NeedsNonNegative(evs0)
    requires !training ==> totalEnergy + Features.SumNeeded(evs0) <= totalReq0
    ensures evs == evs0 + Arrivals(|evs0|, t, training, coin)
    ensures totalReq == if training then totalReq0 else totalReq0 + RequiredOf(Arrivals(0, t, false, false))
    ensures NeedsNonNegative(evs)
    ensures !training ==> totalEnergy + Features.SumNeeded(evs) <= totalReq
  {
    var newEvs := Arrivals(|evs0|, t, training, coin);
    SumNeededAppend(evs0, newEvs);
    evs := evs0 + newEvs;
    totalReq := totalReq0;
    if !training {
      totalReq := totalReq + RequiredOf(newEvs);
    }
  }

  /** Decide and step once (DayStep), and describe the step as a StepTrace: decided, run through the physics of step t. */
  method TraceStep(strategy: string, zetas: seq<real>, evs0: seq<EV>, chargers0: seq<Charger>, t: int)
    returns (evs: seq<EV>, chargers: seq<Charger>, stepC: real, stepE: real, ghost tr: StepTrace)
    requires strategy == "ADP" ==> |zetas| >= 6
    requires NeedsNonNegative(evs0) && PowersNonNegative(chargers0)
    ensures Physics(tr, t) && Decided(strategy, tr.evs, tr.chargers, tr.decs)
    ensures tr.evs == evs0 && tr.chargers == chargers0
    ensures evs == tr.left && chargers == tr.after.chargers && stepE == tr.after.energy && stepC == tr.cost
    ensures StepBounded(t, stepE, stepC) && NeedsNonNegative(evs) && PowersNonNegative(chargers)
    ensures Features.SumNeeded(evs) + stepE <= Features.SumNeeded(evs0)
  {
    var decs;
    evs, chargers, stepC, stepE, decs := DayStep(strategy, zetas, evs0, chargers0, t);
    TariffCharge(t, stepE);
    ghost var after := ApplyAll(StepState(evs0, ResetAll(chargers0), 0.0), decs);
    tr := StepTrace(evs0, chargers0, decs, after, stepC, evs);
  }

  /**
   * One pass of run_day's loop at step t (main.py:219-257): the arrivals join, the
   * features are recorded, the allocator decides and the physics step runs. The step tr
   * starts from the fleet plus the arrivals, is decided and run through the physics, and
   * leaves the new fleet and chargers; total_req follows RequiredUpTo in evaluation, and
   * the delivered energy plus the remaining need stays within total_req.
   */
  method DayIteration(strategy: string, zetas: seq<real>, training: bool, coins: seq<bool>, t: nat,
                      evs0: seq<EV>, chargers0: seq<Charger>, totalReq0: real, totalEnergy: real, feats0: seq<seq<real>>)
    returns (evs: seq<EV>, chargers: seq<Charger>, totalReq: real, feats: seq<seq<real>>, stepC: real, stepE: real,
             ghost tr: StepTrace)
    requires strategy == "ADP" ==> |zetas| >= 6
    requires t < |coins|
    requires NeedsNonNegative(evs0) && PowersNonNegative(chargers0)
    requires totalReq0 == if training then 100.0 else RequiredUpTo(t)
    requires !training ==> totalEnergy + Features.SumNeeded(evs0) <= totalReq0
    requires forall i :: 0 <= i < |feats0| ==> |feats0[i]| == 6 && feats0[i][0] == 1.0
    ensures Physics(tr, t) && Decided(strategy, tr.evs, tr.chargers, tr.decs)
    ensures tr.evs == evs0 + Arrivals(|evs0|, t, training, coins[t]) && tr.chargers == chargers0
    ensures evs == tr.left && chargers == tr.after.chargers && stepE == tr.after.energy && stepC == tr.cost
    ensures StepBounded(t, stepE, stepC) && NeedsNonNegative(evs) && PowersNonNegative(chargers)
    ensures totalReq == if training then 100.0 else RequiredUpTo(t + 1)
    ensures !training ==> totalEnergy + stepE + Features.SumNeeded(evs) <= totalReq
    ensures feats ==
      if strategy == "ADP" || training then feats0 + [Features.BasisFunctions(tr.evs, tr.chargers, t, TAU)] else feats0
    ensures forall i :: 0 <= i < |feats| ==> |feats[i]| == 6 && feats[i][0] == 1.0
  {
    var arrived;
    arrived, totalReq := Arrive(evs0, t, training, coins[t], totalReq0, totalEnergy);
    feats := Observe(strategy == "ADP" || training, feats0, arrived, chargers0, t);
    evs, chargers, stepC, stepE, tr := TraceStep(strategy, zetas, arrived, chargers0, t);
  }

  /** The state of run_day between steps: the fleet, the chargers and the running totals. */
  datatype DayState = DayState(evs: seq<EV>, chargers: seq<Charger>, totalCost: real, totalEnergy: real,
                               totalReq: real, feats: seq<seq<real>>, stepCosts: seq<real>)

  /**
   * What the trace promises between steps: it is chained from the base scenario, every
   * step was decided and run through the physics, the last one left the current fleet and
   * chargers, and the loads, step costs and features are those the steps produced.
   */
  ghost predicate TraceOK(trace: seq<StepTrace>, d: DayState, loads: seq<real>, strategy: string, training: bool,
                          coins: seq<bool>)
  {
    Chained(trace, training, coins) && Stepped(trace, strategy) && Between(trace, d.evs, d.chargers) &&
    Recorded(trace, loads, d.stepCosts) &&
    d.feats == (if strategy == "ADP" || training then FeatsOf(trace) else [])
  }

  /**
   * The running totals after t steps: total_cost and total_energy sum the step costs and
   * loads, every step is bounded, total_req is the demand so far, and in evaluation the
   * energy delivered plus the remaining need stays within it.
   */
  ghost predicate Totals(d: DayState, t: nat, loads: seq<real>, training: bool)
  {
    |loads| == t && |d.stepCosts| == t &&
    NeedsNonNegative(d.evs) && PowersNonNegative(d.chargers) &&
    d.totalCost == SumReals(d.stepCosts) && d.totalEnergy == SumReals(loads) && d.totalEnergy >= 0.0 &&
    (forall i :: 0 <= i < t ==> StepBounded(i, loads[i], d.stepCosts[i])) &&
    d.totalReq == (if training then 100.0 else RequiredUpTo(t)) &&
    (!training ==> d.totalEnergy + Features.SumNeeded(d.evs) <= d.totalReq) &&
    forall i :: 0 <= i < |d.feats| ==> |d.feats[i]| == 6 && d.feats[i][0] == 1.0
  }

  /** One pass of run_day's loop with load_profile[t] = step_e: the totals after t steps become those after t + 1. */
  method Simulate(load: array<real>, strategy: string, zetas: seq<real>, training: bool, coins: seq<bool>, t: nat,
                  ghost loads: seq<real>, d0: DayState)
    returns (d: DayState, ghost tr: StepTrace, ghost loads': seq<real>)
    requires strategy == "ADP" ==> |zetas| >= 6
    requires t < |coins| && t < load.Length && load[..t] == loads
    requires Totals(d0, t, loads, training)
    modifies load
    ensures load[..t + 1] == loads' && Totals(d, t + 1, loads', training)
    ensures Physics(tr, t) && Decided(strategy, tr.evs, tr.chargers, tr.decs)
    ensures tr.evs == d0.evs + Arrivals(|d0.evs|, t, training, coins[t]) && tr.chargers == d0.chargers
    ensures d.evs == tr.left && d.chargers == tr.after.chargers
    ensures loads' == loads + [tr.after.energy] && d.stepCosts == d0.stepCosts + [tr.cost]
    ensures d.feats ==
      if strategy == "ADP" || training then d0.feats + [Features.BasisFunctions(tr.evs, tr.chargers, t, TAU)] else d0.feats
  {
    var evs, chargers, totalReq, feats, stepC, stepE;
    evs, chargers, totalReq, feats, stepC, stepE, tr :=
      DayIteration(strategy, zetas, training, coins, t, d0.evs, d0.chargers, d0.totalReq, d0.totalEnergy, d0.feats);
    var stepCosts, totalCost, totalEnergy;
    loads', stepCosts, totalCost, totalEnergy :=
      Record(load, t, loads, d0.stepCosts, d0.totalCost, d0.totalEnergy, stepC, stepE);
    d := DayState(evs, chargers, totalCost, totalEnergy, totalReq, feats, stepCosts);
  }

  /** A step that starts from what the trace left, decided and run through the physics, extends the trace and what it promises. */
  lemma ProgressExtend(trace: seq<StepTrace>, d0: DayState, loads: seq<real>, strategy: string, training: bool,
                       coins: seq<bool>, tr: StepTrace, d: DayState, loads': seq<real>)
    requires TraceOK(trace, d0, loads, strategy, training, coins) && |trace| < |coins|
    requires Physics(tr, |trace|) && Decided(strategy, tr.evs, tr.chargers, tr.decs)
    requires tr.evs == d0.evs + Arrivals(|d0.evs|, |trace|, training, coins[|trace|]) && tr.chargers == d0.chargers
    requires d.evs == tr.left && d.chargers == tr.after.chargers
    requires loads' == loads + [tr.after.energy] && d.stepCosts == d0.stepCosts + [tr.cost]
    requires d.feats ==
      if strategy == "ADP" || training then d0.feats + [Features.BasisFunctions(tr.evs, tr.chargers, |trace|, TAU)] else d0.feats
    ensures TraceOK(trace + [tr], d, loads', strategy, training, coins)
  {
    ChainedExtend(trace, tr, training, coins, d0.evs);
    SteppedExtend(trace, tr, strategy);
    RecordedExtend(trace, loads, d0.stepCosts, tr);
    assert (trace + [tr])[..|trace|] == trace;
  }

  /** Before the first step: the base scenario, with nothing recorded yet. */
  lemma DayStart(strategy: string, training: bool, coins: seq<bool>)
    ensures var d := DayState(BaseEVs(), BaseChargers(), 0.0, 0.0, RequiredOf(BaseEVs()), [], []);
      TraceOK([], d, [], strategy, training, coins) && Totals(d, 0, [], training)
  {
  }

  /** After the last step, what the trace and the totals promise about the day. */
  lemma DayEnd(trace: seq<StepTrace>, d: DayState, loads: seq<real>, strategy: string, training: bool, coins: seq<bool>)
    requires |trace| == HORIZON
    requires TraceOK(trace, d, loads, strategy, training, coins) && Totals(d, HORIZON, loads, training)
    ensures Chained(trace, training, coins) && Stepped(trace, strategy) && Recorded(trace, loads, d.stepCosts)
    ensures d.totalCost == SumReals(d.stepCosts) && d.totalEnergy == SumReals(loads)
    ensures forall t :: 0 <= t < HORIZON ==> StepBounded(t, loads[t], d.stepCosts[t])
    ensures d.totalReq == if training then 100.0 else 145.0
    ensures !training ==> 0.0 <= ServiceLevel(d.totalEnergy, d.totalReq) <= 100.0
    ensures d.feats == if strategy == "ADP" || training then FeatsOf(trace) else []
    ensures forall t :: 0 <= t < |d.feats| ==> |d.feats[t]| == 6 && d.feats[t][0] == 1.0
  {
    RequiredUpToValue(|trace|);
  }

  /**
   * run_day over the 96 steps; the coins stand for the training draws random() < 0.15.
   * The ghost trace lists what every step saw and decided: the day starts from the base
   * scenario, each step from what the previous one left plus its arrivals. Step t's load
   * is the energy that step delivered and its cost is step_c, the day's cost is their
   * sum, the features are those of the states the steps saw, and the service level is
   * the delivered energy over total_req: the base scenario's 100 kWh in training, and in
   * evaluation also the 45 kWh of the arrival at step 68 (RequiredUpToValue), which keeps
   * it in [0, 100].
   */
  method RunDay(strategy: string, zetas: seq<real>, training: bool, coins: seq<bool>)
    returns (report: DayReport, ghost trace: seq<StepTrace>)
    requires strategy == "ADP" ==> |zetas| >= 6
    requires |coins| == HORIZON
    ensures |trace| == HORIZON && Chained(trace, training, coins) && Stepped(trace, strategy)
    ensures Recorded(trace, report.load, report.stepCosts)
    ensures report.cost == SumReals(report.stepCosts)
    ensures forall t :: 0 <= t < HORIZON ==> StepBounded(t, report.load[t], report.stepCosts[t])
    ensures report.serviceLevel == ServiceLevel(SumReals(report.load), if training then 100.0 else 145.0)
    ensures !training ==> 0.0 <= report.serviceLevel <= 100.0
    ensures report.feats == if strategy == "ADP" || training then FeatsOf(trace) else []
    ensures forall t :: 0 <= t < |report.feats| ==> |report.feats[t]| == 6 && report.feats[t][0] == 1.0
  {
    var load := new real[HORIZON](_ => 0.0);
    var d := DayState(BaseEVs(), BaseChargers(), 0.0, 0.0, RequiredOf(BaseEVs()), [], []);
    trace := [];
    ghost var loads: seq<real> := [];
    DayStart(strategy, training, coins);
    var t := 0;
    while t < HORIZON
      invariant 0 <= t <= HORIZON && |trace| == t && load[..t] == loads
      invariant TraceOK(trace, d, loads, strategy, training, coins) && Totals(d, t, loads, training)
    {
      var d';
      ghost var tr, loads';
      d', tr, loads' := Simulate(load, strategy, zetas, training, coins, t, loads, d);
      ProgressExtend(trace, d, loads, strategy, training, coins, tr, d', loads');
      d, trace, loads := d', trace + [tr], loads';
      t := t + 1;
    }
    DayEnd(trace, d, loads, strategy, training, coins);
    assert load[..t] == load[..];
    var sl := ServiceLevel(d.totalEnergy, d.totalReq);
    report := DayReport(d.totalCost, sl, load[..], d.feats, d.stepCosts);
  }
}
