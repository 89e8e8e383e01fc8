/**
 * The basis functions of the value-function approximation (features.py):
 * six reals computed from the vehicles, the chargers and the current step.
 */
module Features {
  import opened Entities

  /** Number of steps in the day that the time feature divides by; features.py writes 96 itself. */
  const DAY_STEPS: int := 96

  /** phi_1: how many EVs carry an assigned charger id. */
  function CountScheduled(evs: seq<EV>): (n: nat)
    ensures n <= |evs|
    ensures n == 0 <==> forall i :: 0 <= i < |evs| ==> evs[i].assignedChargerId.None?
    ensures n == |evs| <==> forall i :: 0 <= i < |evs| ==> evs[i].assignedChargerId.Some?
  {
    if evs == [] then 0
    else (if evs[0].assignedChargerId.Some? then 1 else 0) + CountScheduled(evs[1..])
  }

  /** phi_2: free connectors summed over the chargers. */
  function SumAvailable(chargers: seq<Charger>): (n: int)
    ensures n <= TotalConnectors(chargers)
  {
    if chargers == [] then 0 else AvailableConnectors(chargers[0]) + SumAvailable(chargers[1..])
  }

  /** When every charger's occupied keys are real connectors, the free-connector count is not negative. */
  lemma {:induction false} SumAvailableNonNegative(chargers: seq<Charger>)
    requires forall i :: 0 <= i < |chargers| ==> KeysInRange(chargers[i]) && chargers[i].numConnectors >= 0
    ensures 0 <= SumAvailable(chargers) <= TotalConnectors(chargers)
  {
    if chargers != [] {
      AvailableNonNegative(chargers[0]);
      SumAvailableNonNegative(chargers[1..]);
    }
  }

  /** phi_3: remaining energy demand over all EVs, assigned or not. */
  function SumNeeded(evs: seq<EV>): (r: real)
    ensures (forall i :: 0 <= i < |evs| ==> evs[i].currentEnergyNeeded >= 0.0) ==> r >= 0.0
  {
    if evs == [] then 0.0 else evs[0].currentEnergyNeeded + SumNeeded(evs[1..])
  }

  function RealMax(a: real, b: real): real
  {
    if a >= b then a else b
  }

  /** An EV counts towards urgency when it is unassigned and has not yet reached its departure step. */
  predicate Waiting(e: EV, epoch: int)
  {
    e.assignedChargerId.None? && e.departureTime > epoch
  }

  /** One EV's contribution to phi_4: 1 / max(time remaining, 0.1) for a waiting EV, zero otherwise. */
  function UrgencyTerm(e: EV, epoch: int): (u: real)
    ensures 0.0 <= u <= 1.0
    ensures !Waiting(e, epoch) ==> u == 0.0
    ensures Waiting(e, epoch) ==> u > 0.0 && u == 1.0 / (e.departureTime - epoch) as real
  {
    if Waiting(e, epoch) then 1.0 / RealMax((e.departureTime - epoch) as real, 0.1) else 0.0
  }

  /** phi_4: the urgency score, zero exactly when no EV is waiting. */
  function Urgency(evs: seq<EV>, epoch: int): (r: real)
    ensures 0.0 <= r <= |evs| as real
    ensures r == 0.0 <==> forall i :: 0 <= i < |evs| ==> !Waiting(evs[i], epoch)
  {
    if evs == [] then 0.0 else UrgencyTerm(evs[0], epoch) + Urgency(evs[1..], epoch)
  }

  /**
   * phi_5: minutes elapsed over minutes in a 96-step day. The step length cancels,
   * so the value is epoch / 96 whatever tau is.
   */
  function TimeFeature(epoch: int, tau: int): (r: real)
    requires tau != 0
    ensures r == epoch as real / DAY_STEPS as real
    ensures 0 <= epoch < DAY_STEPS ==> 0.0 <= r < 1.0
  {
    var totalDayMinutes := DAY_STEPS * tau;
    var currentMinutes := epoch * tau;
    assert currentMinutes as real == (epoch as real / DAY_STEPS as real) * totalDayMinutes as real;
    currentMinutes as real / totalDayMinutes as real
  }

  /** get_basis_functions: the feature vector [bias, scheduled, available, remaining, urgency, time]. */
  function BasisFunctions(evs: seq<EV>, chargers: seq<Charger>, epoch: int, tau: int): (phi: seq<real>)
    requires tau != 0
    ensures |phi| == 6 && phi[0] == 1.0
    ensures 0.0 <= phi[1] <= |evs| as real
    ensures phi[2] <= TotalConnectors(chargers) as real
    ensures (forall i :: 0 <= i < |evs| ==> evs[i].currentEnergyNeeded >= 0.0) ==> phi[3] >= 0.0
    ensures 0.0 <= phi[4] <= |evs| as real
    ensures phi[5] == epoch as real / DAY_STEPS as real
  {
    [1.0,
     CountScheduled(evs) as real,
     SumAvailable(chargers) as real,
     SumNeeded(evs),
     Urgency(evs, epoch),
     TimeFeature(epoch, tau)]
  }

  /** The feature vector's entries, as the separate feature functions define them. */
  lemma BasisFunctionsEntries(evs: seq<EV>, chargers: seq<Charger>, epoch: int, tau: int)
    requires tau != 0
    ensures var phi := BasisFunctions(evs, chargers, epoch, tau);
      phi[1] == CountScheduled(evs) as real && phi[2] == SumAvailable(chargers) as real &&
      phi[3] == SumNeeded(evs) && phi[4] == Urgency(evs, epoch) && phi[5] == TimeFeature(epoch, tau)
  {
  }

  /** With well-formed chargers the available-connector feature lies between 0 and the connector total. */
  lemma BasisAvailableBounds(evs: seq<EV>, chargers: seq<Charger>, epoch: int, tau: int)
    requires tau != 0
    requires forall i :: 0 <= i < |chargers| ==> KeysInRange(chargers[i]) && chargers[i].numConnectors >= 0
    ensures 0.0 <= BasisFunctions(evs, chargers, epoch, tau)[2] <= TotalConnectors(chargers) as real
  {
    SumAvailableNonNegative(chargers);
  }
}
