/**
 * The entity records of the charging simulation: electric vehicles, chargers
 * with their connectors, and the assignment decisions that the allocators
 * produce (classes.py, and the decision records of heuristics.py and solver.py).
 */
module Entities {

  datatype Option<T> = None | Some(value: T)

  /** A vehicle. Energies are in kWh, times are step indices of the day. */
  datatype EV = EV(
    id: int,
    arrivalTime: int,
    departureTime: int,
    requiredEnergy: real,
    currentEnergyNeeded: real,
    assignedChargerId: Option<int>,
    assignedConnectorId: Option<int>)

  /** A charging station; connectedEvs maps a connector index to the id of the EV on it. */
  datatype Charger = Charger(
    id: int,
    maxPower: real,
    numConnectors: int,
    isLevel3: bool,
    connectedEvs: map<int, int>)

  /** One assignment: EV evId charges on connector connectorId of charger chargerId at chargeRate kW. */
  datatype Decision = Decision(chargerId: int, connectorId: int, evId: int, chargeRate: real)

  /** A vehicle as the dataclass constructor builds it: both assignment fields default to None. */
  function NewEV(id: int, arrival: int, departure: int, required: real, needed: real): (e: EV)
    ensures e.assignedChargerId == None && e.assignedConnectorId == None
    ensures e.id == id && e.arrivalTime == arrival && e.departureTime == departure
    ensures e.requiredEnergy == required && e.currentEnergyNeeded == needed
  {
    EV(id, arrival, departure, required, needed, None, None)
  }

  /** A charger as the dataclass constructor builds it: no connector is occupied yet. */
  function NewCharger(id: int, maxPower: real, numConnectors: int, isLevel3: bool): (c: Charger)
    ensures c.id == id && c.maxPower == maxPower && c.numConnectors == numConnectors && c.isLevel3 == isLevel3
    ensures c.connectedEvs == map[]
    ensures AvailableConnectors(c) == numConnectors
  {
    Charger(id, maxPower, numConnectors, isLevel3, map[])
  }

  /** get_available_connectors: connectors not occupied by an EV (may be negative if the map is over-full). */
  function AvailableConnectors(c: Charger): (r: int)
    ensures r <= c.numConnectors
  {
    c.numConnectors - |c.connectedEvs|
  }

  /** Every occupied connector index names a physical connector of the charger. */
  ghost predicate KeysInRange(c: Charger)
  {
    forall k :: k in c.connectedEvs ==> 0 <= k < c.numConnectors
  }

  /** Records that EV evId now occupies the given connector (connected_evs[connector] = evId). */
  function Connect(c: Charger, connector: int, evId: int): (r: Charger)
    ensures r.id == c.id && r.maxPower == c.maxPower && r.numConnectors == c.numConnectors && r.isLevel3 == c.isLevel3
    ensures connector in r.connectedEvs && r.connectedEvs[connector] == evId
    ensures forall k :: k != connector ==> (k in r.connectedEvs <==> k in c.connectedEvs)
    ensures forall k :: k != connector && k in c.connectedEvs ==> r.connectedEvs[k] == c.connectedEvs[k]
    ensures AvailableConnectors(r) ==
      if connector in c.connectedEvs then AvailableConnectors(c) else AvailableConnectors(c) - 1
  {
    c.(connectedEvs := c.connectedEvs[connector := evId])
  }

  /** The per-step reset of a charger's occupancy map (connected_evs = {}). */
  function ResetConnections(c: Charger): (r: Charger)
    ensures r.id == c.id && r.maxPower == c.maxPower && r.numConnectors == c.numConnectors && r.isLevel3 == c.isLevel3
    ensures r.connectedEvs == map[]
    ensures AvailableConnectors(r) == c.numConnectors
  {
    c.(connectedEvs := map[])
  }

  /** The set {0, ..., n-1} of connector indices of a charger with n connectors. */
  function ConnectorRange(n: int): (s: set<int>)
    ensures forall k :: k in s <==> 0 <= k < n
    ensures |s| == if n < 0 then 0 else n
    decreases n
  {
    if n <= 0 then {} else assert n - 1 !in ConnectorRange(n - 1); ConnectorRange(n - 1) + {n - 1}
  }

  lemma SubsetSize(a: set<int>, b: set<int>)
    requires a <= b
    ensures |a| <= |b|
  {
    assert b == a + (b - a);
    assert a * (b - a) == {};
  }

  /** If every occupied key is a real connector, the available count never goes negative. */
  lemma AvailableNonNegative(c: Charger)
    requires KeysInRange(c) && c.numConnectors >= 0
    ensures 0 <= AvailableConnectors(c) <= c.numConnectors
  {
    assert c.connectedEvs.Keys <= ConnectorRange(c.numConnectors);
    SubsetSize(c.connectedEvs.Keys, ConnectorRange(c.numConnectors));
    assert |c.connectedEvs.Keys| == |c.connectedEvs|;
  }

  /** Writing a connector index of the charger keeps every key in range. */
  lemma ConnectKeepsKeysInRange(c: Charger, connector: int, evId: int)
    requires KeysInRange(c) && 0 <= connector < c.numConnectors
    ensures KeysInRange(Connect(c, connector, evId))
  {
  }

  /** Index of the first element whose id matches (the source's `next(x for x in xs if x.id == id)`). */
  function FirstEV(evs: seq<EV>, id: int): (r: Option<nat>)
    ensures r.Some? ==> r.value < |evs| && evs[r.value].id == id
                        && forall j :: 0 <= j < r.value ==> evs[j].id != id
    ensures r.None? ==> forall j :: 0 <= j < |evs| ==> evs[j].id != id
  {
    if evs == [] then None
    else if evs[0].id == id then Some(0)
    else match FirstEV(evs[1..], id)
      case None => None
      case Some(j) => Some(j + 1)
  }

  function FirstCharger(chargers: seq<Charger>, id: int): (r: Option<nat>)
    ensures r.Some? ==> r.value < |chargers| && chargers[r.value].id == id
                        && forall j :: 0 <= j < r.value ==> chargers[j].id != id
    ensures r.None? ==> forall j :: 0 <= j < |chargers| ==> chargers[j].id != id
  {
    if chargers == [] then None
    else if chargers[0].id == id then Some(0)
    else match FirstCharger(chargers[1..], id)
      case None => None
      case Some(j) => Some(j + 1)
  }

  /** Energy in kWh delivered at rate kW during one step of tau minutes. */
  function StepEnergy(rate: real, tau: int): real
  {
    rate * (tau as real / 60.0)
  }

  /** Total number of physical connectors over all chargers. */
  function TotalConnectors(chargers: seq<Charger>): int
  {
    if chargers == [] then 0 else chargers[0].numConnectors + TotalConnectors(chargers[1..])
  }
}
