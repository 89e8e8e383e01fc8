/**
 * The structure of the ADP decision model (solver.py): the candidate
 * (charger, connector, EV) triples, the constraints C1-C4 of the mixed-integer
 * program, the objective (immediate cost plus the value-function approximation
 * over features rebuilt from the decision variables) and the extraction of the
 * chosen triples. The MILP solve itself is an oracle: it returns some x and q
 * that satisfy C1-C4, with no claim of optimality.
 */
module Solver {
  import opened Entities
  import Features
  import Heuristics

  /** A candidate assignment (charger.id, k, ev.id). */
  datatype Triple = Triple(chargerId: int, connector: int, evId: int)

  // ---------------------------------------------------------------------------
  // Candidate enumeration (solver.py:5-10).
  // ---------------------------------------------------------------------------

  /** The innermost loop: one triple per EV that still needs energy, in EV order. */
  function EvCandidates(chargerId: int, k: int, evs: seq<EV>): seq<Triple>
  {
    if evs == [] then []
    else
      var init := EvCandidates(chargerId, k, evs[..|evs| - 1]);
      init + (if Heuristics.Needy(evs[|evs| - 1]) then [Triple(chargerId, k, evs[|evs| - 1].id)] else [])
  }

  /** The middle loop: connectors 0 .. n-1 of one charger. */
  function ConnectorCandidates(chargerId: int, n: int, evs: seq<EV>): seq<Triple>
    decreases n
  {
    if n <= 0 then [] else ConnectorCandidates(chargerId, n - 1, evs) + EvCandidates(chargerId, n - 1, evs)
  }

  /** The outer loop over the chargers. */
  function Candidates(chargers: seq<Charger>, evs: seq<EV>): seq<Triple>
  {
    if chargers == [] then []
    else
      var last := chargers[|chargers| - 1];
      Candidates(chargers[..|chargers| - 1], evs) + ConnectorCandidates(last.id, last.numConnectors, evs)
  }

  /** The innermost loop: append a triple for each EV that still needs energy. */
  method AppendEvTriples(possible0: seq<Triple>, chargerId: int, k: int, evs: seq<EV>) returns (possible: seq<Triple>)
    ensures possible == possible0 + EvCandidates(chargerId, k, evs)
  {
    possible := possible0;
    var j := 0;
    while j < |evs|
      invariant 0 <= j <= |evs|
      invariant possible == possible0 + EvCandidates(chargerId, k, evs[..j])
    {
      assert evs[..j + 1][..j] == evs[..j];
      if Heuristics.Needy(evs[j]) {
        possible := possible + [Triple(chargerId, k, evs[j].id)];
      }
      j := j + 1;
    }
    assert evs[..j] == evs;
  }

  /** The middle loop over the connectors of one charger. */
  method AppendChargerTriples(possible0: seq<Triple>, charger: Charger, evs: seq<EV>) returns (possible: seq<Triple>)
    ensures possible == possible0 + ConnectorCandidates(charger.id, charger.numConnectors, evs)
  {
    possible := possible0;
    var k := 0;
    while k < charger.numConnectors
      invariant 0 <= k <= Heuristics.IntMax(charger.numConnectors, 0)
      invariant possible == possible0 + ConnectorCandidates(charger.id, k, evs)
    {
      possible := AppendEvTriples(possible, charger.id, k, evs);
      k := k + 1;
    }
    assert ConnectorCandidates(charger.id, k, evs) == ConnectorCandidates(charger.id, charger.numConnectors, evs);
  }

  /** possible_assignments, built by the three nested loops of the source. */
  method EnumerateCandidates(chargers: seq<Charger>, evs: seq<EV>) returns (possible: seq<Triple>)
    ensures possible == Candidates(chargers, evs)
  {
    possible := [];
    var i := 0;
    while i < |chargers|
      invariant 0 <= i <= |chargers|
      invariant possible == Candidates(chargers[..i], evs)
    {
      possible := AppendChargerTriples(possible, chargers[i], evs);
      assert chargers[..i + 1][..i] == chargers[..i];
      i := i + 1;
    }
    assert chargers[..i] == chargers;
  }

  /** Some EV with this id still needs energy. */
  ghost predicate HasNeedyEv(evs: seq<EV>, id: int)
  {
    exists e :: 0 <= e < |evs| && evs[e].id == id && Heuristics.Needy(evs[e])
  }

  /** The triple comes from a charger with that id, one of its connectors, and a needy EV with that id. */
  ghost predicate IsCandidate(chargers: seq<Charger>, evs: seq<EV>, t: Triple)
  {
    (exists ci :: 0 <= ci < |chargers| && chargers[ci].id == t.chargerId && 0 <= t.connector < chargers[ci].numConnectors) &&
    HasNeedyEv(evs, t.evId)
  }

  lemma {:induction false} EvCandidatesMembers(chargerId: int, k: int, evs: seq<EV>, t: Triple)
    ensures t in EvCandidates(chargerId, k, evs) <==>
      t.chargerId == chargerId && t.connector == k &&
      HasNeedyEv(evs, t.evId)
  {
    if evs != [] {
      var init := evs[..|evs| - 1];
      EvCandidatesMembers(chargerId, k, init, t);
      if HasNeedyEv(init, t.evId) {
        var e :| 0 <= e < |init| && init[e].id == t.evId && Heuristics.Needy(init[e]);
        assert evs[e] == init[e];
      }
      if HasNeedyEv(evs, t.evId) {
        var e :| 0 <= e < |evs| && evs[e].id == t.evId && Heuristics.Needy(evs[e]);
        if e < |init| {
          assert init[e] == evs[e];
        }
      }
    }
  }

  lemma {:induction false} ConnectorCandidatesMembers(chargerId: int, n: int, evs: seq<EV>, t: Triple)
    ensures t in ConnectorCandidates(chargerId, n, evs) <==>
      t.chargerId == chargerId && 0 <= t.connector < n &&
      HasNeedyEv(evs, t.evId)
    decreases n
  {
    if n > 0 {
      ConnectorCandidatesMembers(chargerId, n - 1, evs, t);
      EvCandidatesMembers(chargerId, n - 1, evs, t);
    }
  }

  /** The candidates are exactly the triples of a charger's connector and a needy EV. */
  lemma {:induction false} CandidatesMembers(chargers: seq<Charger>, evs: seq<EV>, t: Triple)
    ensures t in Candidates(chargers, evs) <==> IsCandidate(chargers, evs, t)
  {
    if chargers != [] {
      var init := chargers[..|chargers| - 1];
      var last := chargers[|chargers| - 1];
      CandidatesMembers(init, evs, t);
      ConnectorCandidatesMembers(last.id, last.numConnectors, evs, t);
      if t in Candidates(chargers, evs) {
        if t in Candidates(init, evs) {
          var ci :| 0 <= ci < |init| && init[ci].id == t.chargerId && 0 <= t.connector < init[ci].numConnectors;
          assert chargers[ci] == init[ci];
        } else {
          assert chargers[|chargers| - 1] == last;
        }
      }
      if IsCandidate(chargers, evs, t) {
        var ci :| 0 <= ci < |chargers| && chargers[ci].id == t.chargerId && 0 <= t.connector < chargers[ci].numConnectors;
        if ci < |init| {
          assert init[ci] == chargers[ci];
        }
      }
    } else {
      assert !IsCandidate(chargers, evs, t);
    }
  }

  /** Connectors of the chargers, counting a negative connector count as zero. */
  function ConnectorCount(chargers: seq<Charger>): nat
  {
    if chargers == [] then 0
    else ConnectorCount(chargers[..|chargers| - 1]) + Heuristics.IntMax(chargers[|chargers| - 1].numConnectors, 0)
  }

  /** Needy EVs, counted as the innermost loop counts them. */
  function NeedyCount(evs: seq<EV>): (n: nat)
    ensures n == |EvCandidates(0, 0, evs)|
  {
    if evs == [] then 0
    else NeedyCount(evs[..|evs| - 1]) + (if Heuristics.Needy(evs[|evs| - 1]) then 1 else 0)
  }

  lemma {:induction false} EvCandidatesLength(chargerId: int, k: int, evs: seq<EV>)
    ensures |EvCandidates(chargerId, k, evs)| == NeedyCount(evs)
  {
    if evs != [] {
      EvCandidatesLength(chargerId, k, evs[..|evs| - 1]);
    }
  }

  lemma {:induction false} ConnectorCandidatesLength(chargerId: int, n: int, evs: seq<EV>)
    ensures |ConnectorCandidates(chargerId, n, evs)| == Heuristics.IntMax(n, 0) * NeedyCount(evs)
    decreases n
  {
    if n > 0 {
      ConnectorCandidatesLength(chargerId, n - 1, evs);
      EvCandidatesLength(chargerId, n - 1, evs);
      Distributes(n - 1, 1, NeedyCount(evs));
    }
  }

  lemma Distributes(c: int, m: int, w: int)
    ensures (c + m) * w == c * w + m * w
  {
  }

  /** One triple for every connector and every needy EV. */
  lemma {:induction false} CandidatesLength(chargers: seq<Charger>, evs: seq<EV>)
    ensures |Candidates(chargers, evs)| == ConnectorCount(chargers) * NeedyCount(evs)
  {
    if chargers != [] {
      var init := chargers[..|chargers| - 1];
      var last := chargers[|chargers| - 1];
      CandidatesLength(init, evs);
      ConnectorCandidatesLength(last.id, last.numConnectors, evs);
      var c, m, w := ConnectorCount(init), Heuristics.IntMax(last.numConnectors, 0), NeedyCount(evs);
      assert ConnectorCount(chargers) == c + m;
      Distributes(c, m, w);
    }
  }

  /** The early return of solver.py:13-14 happens exactly when no EV is needy or no charger has a connector. */
  lemma ProductZero(a: nat, b: nat)
    ensures a * b == 0 <==> a == 0 || b == 0
  {
    if a != 0 && b != 0 {
      assert a * b >= b by {
        assert a * b == (a - 1) * b + b;
      }
    }
  }

  lemma CandidatesEmpty(chargers: seq<Charger>, evs: seq<EV>)
    ensures Candidates(chargers, evs) == [] <==> ConnectorCount(chargers) == 0 || NeedyCount(evs) == 0
  {
    CandidatesLength(chargers, evs);
    ProductZero(ConnectorCount(chargers), NeedyCount(evs));
  }

  // ---------------------------------------------------------------------------
  // The index set model.A: pyomo's Set keeps the first copy of a repeated triple.
  // ---------------------------------------------------------------------------

  function Dedup(s: seq<Triple>): (d: seq<Triple>)
    ensures forall t :: t in d <==> t in s
    ensures forall n, m :: 0 <= n < m < |d| ==> d[n] != d[m]
  {
    if s == [] then []
    else
      var init := Dedup(s[..|s| - 1]);
      assert forall t :: t in s <==> t in s[..|s| - 1] || t == s[|s| - 1];
      if s[|s| - 1] in init then init else init + [s[|s| - 1]]
  }

  /** Without repeated triples the index set is the candidate list itself. */
  lemma {:induction false} DedupOfDistinct(s: seq<Triple>)
    requires forall n, m :: 0 <= n < m < |s| ==> s[n] != s[m]
    ensures Dedup(s) == s
  {
    if s != [] {
      var init := s[..|s| - 1];
      DedupOfDistinct(init);
      assert s[|s| - 1] !in init;
      assert init + [s[|s| - 1]] == s;
    }
  }

  // ---------------------------------------------------------------------------
  // Constraints C1-C4 (solver.py:25-48).
  // ---------------------------------------------------------------------------

  /** Which triples a constraint sums over: one connector (C1) or one EV (C2). */
  datatype Selector = OnConnector(chargerId: int, connector: int) | OnEv(evId: int)

  predicate Selects(s: Selector, t: Triple)
  {
    match s
    case OnConnector(i, k) => t.chargerId == i && t.connector == k
    case OnEv(j) => t.evId == j
  }

  /** Sum of x over the triples the selector picks. */
  function Load(a: seq<Triple>, x: seq<int>, s: Selector): int
    requires |a| == |x|
  {
    if a == [] then 0 else (if Selects(s, a[0]) then x[0] else 0) + Load(a[1..], x[1..], s)
  }

  /** Sum of x over all triples: f_sched. */
  function Scheduled(x: seq<int>): int
  {
    if x == [] then 0 else x[0] + Scheduled(x[1..])
  }

  /** max_power of the first charger with that id (always present for a candidate). */
  function MaxPowerOf(chargers: seq<Charger>, id: int): real
  {
    match FirstCharger(chargers, id)
    case None => 0.0
    case Some(ci) => chargers[ci].maxPower
  }

  /** current_energy_needed of the first EV with that id (always present for a candidate). */
  function NeedOf(evs: seq<EV>, id: int): real
  {
    match FirstEV(evs, id)
    case None => 0.0
    case Some(i) => evs[i].currentEnergyNeeded
  }

  predicate Binary(v: int)
  {
    v == 0 || v == 1
  }

  /** x is binary, q is non-negative, both indexed like a, and C1-C4 hold. */
  predicate Feasible(a: seq<Triple>, x: seq<int>, q: seq<real>, chargers: seq<Charger>, evs: seq<EV>, tau: int)
  {
    |x| == |a| && |q| == |a| &&
    (forall n :: 0 <= n < |a| ==> Binary(x[n]) && q[n] >= 0.0) &&
    // C1: at most one EV per connector
    (forall n :: 0 <= n < |a| ==> Load(a, x, OnConnector(a[n].chargerId, a[n].connector)) <= 1) &&
    // C2: at most one connector per EV
    (forall n :: 0 <= n < |a| ==> Load(a, x, OnEv(a[n].evId)) <= 1) &&
    // C3: q <= max_power * x
    (forall n :: 0 <= n < |a| ==> q[n] <= MaxPowerOf(chargers, a[n].chargerId) * x[n] as real) &&
    // C4: q * tau/60 <= need
    (forall n :: 0 <= n < |a| ==> StepEnergy(q[n], tau) <= NeedOf(evs, a[n].evId))
  }

  function Zeros(n: nat): (z: seq<int>)
    ensures |z| == n && forall i :: 0 <= i < n ==> z[i] == 0
  {
    seq(n, _ => 0)
  }

  function RealZeros(n: nat): (z: seq<real>)
    ensures |z| == n && forall i :: 0 <= i < n ==> z[i] == 0.0
  {
    seq(n, _ => 0.0)
  }

  lemma {:induction false} LoadOfZeros(a: seq<Triple>, x: seq<int>, s: Selector)
    requires |a| == |x| && forall n :: 0 <= n < |x| ==> x[n] == 0
    ensures Load(a, x, s) == 0
  {
    if a != [] {
      LoadOfZeros(a[1..], x[1..], s);
    }
  }

  lemma {:induction false} NeedOfNonNegative(evs: seq<EV>, id: int)
    requires forall i :: 0 <= i < |evs| ==> evs[i].currentEnergyNeeded >= 0.0
    ensures NeedOf(evs, id) >= 0.0
  {
  }

  /** Charging nobody is always feasible when no need is negative, so the oracle has something to return. */
  lemma IdleFeasible(a: seq<Triple>, chargers: seq<Charger>, evs: seq<EV>, tau: int)
    requires forall i :: 0 <= i < |evs| ==> evs[i].currentEnergyNeeded >= 0.0
    ensures Feasible(a, Zeros(|a|), RealZeros(|a|), chargers, evs, tau)
  {
    var x, q := Zeros(|a|), RealZeros(|a|);
    forall n | 0 <= n < |a|
      ensures Load(a, x, OnConnector(a[n].chargerId, a[n].connector)) <= 1
      ensures Load(a, x, OnEv(a[n].evId)) <= 1
      ensures StepEnergy(q[n], tau) <= NeedOf(evs, a[n].evId)
    {
      LoadOfZeros(a, x, OnConnector(a[n].chargerId, a[n].connector));
      LoadOfZeros(a, x, OnEv(a[n].evId));
      NeedOfNonNegative(evs, a[n].evId);
    }
  }

  /** C3 with binary x: an unchosen triple carries no power, a chosen one at most the charger's max power; C4 bounds its energy. */
  lemma FeasibleRates(a: seq<Triple>, x: seq<int>, q: seq<real>, chargers: seq<Charger>, evs: seq<EV>, tau: int, n: int)
    requires Feasible(a, x, q, chargers, evs, tau) && 0 <= n < |a|
    ensures x[n] == 0 ==> q[n] == 0.0
    ensures x[n] == 1 ==> 0.0 <= q[n] <= MaxPowerOf(chargers, a[n].chargerId)
    ensures StepEnergy(q[n], tau) <= NeedOf(evs, a[n].evId)
  {
  }

  // ---------------------------------------------------------------------------
  // Facts about loads used by the remaining-demand bound and by extraction.
  // ---------------------------------------------------------------------------

  lemma {:induction false} LoadNonNegative(a: seq<Triple>, x: seq<int>, s: Selector)
    requires |a| == |x| && forall n :: 0 <= n < |x| ==> x[n] >= 0
    ensures Load(a, x, s) >= 0
  {
    if a != [] {
      LoadNonNegative(a[1..], x[1..], s);
    }
  }

  lemma {:induction false} LoadAtLeast(a: seq<Triple>, x: seq<int>, s: Selector, n: int)
    requires |a| == |x| && forall m :: 0 <= m < |x| ==> x[m] >= 0
    requires 0 <= n < |a| && Selects(s, a[n])
    ensures Load(a, x, s) >= x[n]
  {
    LoadNonNegative(a[1..], x[1..], s);
    if n > 0 {
      LoadAtLeast(a[1..], x[1..], s, n - 1);
    }
  }

  /** Two chosen triples under one selector make its load at least two. */
  lemma {:induction false} LoadAtLeastTwo(a: seq<Triple>, x: seq<int>, s: Selector, n1: int, n2: int)
    requires |a| == |x| && forall m :: 0 <= m < |x| ==> x[m] >= 0
    requires 0 <= n1 < n2 < |a| && Selects(s, a[n1]) && Selects(s, a[n2]) && x[n1] >= 1 && x[n2] >= 1
    ensures Load(a, x, s) >= 2
  {
    if n1 == 0 {
      LoadAtLeast(a[1..], x[1..], s, n2 - 1);
    } else {
      LoadAtLeastTwo(a[1..], x[1..], s, n1 - 1, n2 - 1);
    }
  }

  lemma {:induction false} LoadZero(a: seq<Triple>, x: seq<int>, s: Selector, n: int)
    requires |a| == |x| && forall m :: 0 <= m < |x| ==> x[m] >= 0
    requires Load(a, x, s) <= 0 && 0 <= n < |a| && Selects(s, a[n])
    ensures x[n] == 0
  {
    LoadAtLeast(a, x, s, n);
  }

  // ---------------------------------------------------------------------------
  // Energy delivered (solver.py:62) and the remaining-demand feature.
  // ---------------------------------------------------------------------------

  /** energy_delivered_now: q * tau/60 summed over all triples. */
  function Delivered(a: seq<Triple>, q: seq<real>, tau: int): real
    requires |a| == |q|
  {
    if a == [] then 0.0 else StepEnergy(q[0], tau) + Delivered(a[1..], q[1..], tau)
  }

  /** The same sum restricted to triples whose EV id is in ids. */
  function DeliveredIn(a: seq<Triple>, q: seq<real>, ids: set<int>, tau: int): real
    requires |a| == |q|
  {
    if a == [] then 0.0
    else (if a[0].evId in ids then StepEnergy(q[0], tau) else 0.0) + DeliveredIn(a[1..], q[1..], ids, tau)
  }

  /** Energy delivered to the EVs with one id. */
  function DeliveredTo(a: seq<Triple>, q: seq<real>, id: int, tau: int): real
    requires |a| == |q|
  {
    DeliveredIn(a, q, {id}, tau)
  }

  /** The ids of a vehicle list. */
  function Ids(evs: seq<EV>): (r: set<int>)
    ensures forall i :: 0 <= i < |evs| ==> evs[i].id in r
  {
    if evs == [] then {} else {evs[0].id} + Ids(evs[1..])
  }

  lemma {:induction false} DeliveredInAll(a: seq<Triple>, q: seq<real>, ids: set<int>, tau: int)
    requires |a| == |q| && forall n :: 0 <= n < |a| ==> a[n].evId in ids
    ensures DeliveredIn(a, q, ids, tau) == Delivered(a, q, tau)
  {
    if a != [] {
      DeliveredInAll(a[1..], q[1..], ids, tau);
    }
  }

  lemma {:induction false} DeliveredInZero(a: seq<Triple>, q: seq<real>, ids: set<int>, tau: int)
    requires |a| == |q| && forall n :: 0 <= n < |a| && a[n].evId in ids ==> q[n] == 0.0
    ensures DeliveredIn(a, q, ids, tau) == 0.0
  {
    if a != [] {
      DeliveredInZero(a[1..], q[1..], ids, tau);
    }
  }

  lemma {:induction false} DeliveredInSplit(a: seq<Triple>, q: seq<real>, ids: set<int>, id: int, tau: int)
    requires |a| == |q| && id in ids
    ensures DeliveredIn(a, q, ids, tau) == DeliveredTo(a, q, id, tau) + DeliveredIn(a, q, ids - {id}, tau)
  {
    if a != [] {
      DeliveredInSplit(a[1..], q[1..], ids, id, tau);
    }
  }

  /** C2 with C3 and C4: the EVs of one id receive at most the need that C4 compares against. */
  lemma {:induction false} DeliveredToBound(a: seq<Triple>, x: seq<int>, q: seq<real>, id: int, cap: real, tau: int)
    requires |a| == |x| == |q| && cap >= 0.0
    requires forall n :: 0 <= n < |a| ==> Binary(x[n]) && (x[n] == 0 ==> q[n] == 0.0)
    requires forall n :: 0 <= n < |a| && a[n].evId == id ==> StepEnergy(q[n], tau) <= cap
    requires Load(a, x, OnEv(id)) <= 1
    ensures DeliveredTo(a, q, id, tau) <= cap
  {
    if a != [] {
      LoadNonNegative(a[1..], x[1..], OnEv(id));
      if a[0].evId == id && x[0] == 1 {
        forall n | 0 <= n < |a[1..]| && a[1..][n].evId in {id}
          ensures q[1..][n] == 0.0
        {
          LoadZero(a[1..], x[1..], OnEv(id), n);
        }
        DeliveredInZero(a[1..], q[1..], {id}, tau);
      } else {
        DeliveredToBound(a[1..], x[1..], q[1..], id, cap, tau);
      }
    }
  }

  lemma NeedOfTail(evs: seq<EV>, id: int)
    requires evs != [] && evs[0].id != id
    ensures NeedOf(evs, id) == NeedOf(evs[1..], id)
  {
    match FirstEV(evs[1..], id)
    case None =>
    case Some(j) => assert evs[j + 1] == evs[1..][j];
  }

  /** Regrouping by EV id: if each id receives at most its first EV's need, the total is at most the summed needs. */
  lemma {:induction false} DeliveredWithinNeeds(a: seq<Triple>, q: seq<real>, evs: seq<EV>, ids: set<int>, tau: int)
    requires |a| == |q| && ids <= Ids(evs)
    requires forall i :: 0 <= i < |evs| ==> evs[i].currentEnergyNeeded >= 0.0
    requires forall id :: id in ids ==> DeliveredTo(a, q, id, tau) <= NeedOf(evs, id)
    ensures DeliveredIn(a, q, ids, tau) <= Features.SumNeeded(evs)
  {
    if evs == [] {
      assert ids == {};
      DeliveredInZero(a, q, ids, tau);
    } else {
      var e := evs[0];
      var rest := evs[1..];
      assert forall i :: 0 <= i < |rest| ==> rest[i].currentEnergyNeeded >= 0.0;
      assert Features.SumNeeded(rest) >= 0.0;
      if e.id in ids {
        DeliveredInSplit(a, q, ids, e.id, tau);
        forall id | id in ids - {e.id} ensures DeliveredTo(a, q, id, tau) <= NeedOf(rest, id) {
          NeedOfTail(evs, id);
        }
        DeliveredWithinNeeds(a, q, rest, ids - {e.id}, tau);
      } else {
        forall id | id in ids ensures DeliveredTo(a, q, id, tau) <= NeedOf(rest, id) {
          NeedOfTail(evs, id);
        }
        DeliveredWithinNeeds(a, q, rest, ids, tau);
      }
    }
  }

  /** Under C2-C4 with non-negative needs the energy delivered never exceeds the total demand, so f_rem >= 0. */
  lemma RemainingNonNegative(a: seq<Triple>, x: seq<int>, q: seq<real>, chargers: seq<Charger>, evs: seq<EV>, tau: int)
    requires Feasible(a, x, q, chargers, evs, tau)
    requires forall i :: 0 <= i < |evs| ==> evs[i].currentEnergyNeeded >= 0.0
    requires forall n :: 0 <= n < |a| ==> a[n].evId in Ids(evs)
    ensures Delivered(a, q, tau) <= Features.SumNeeded(evs)
    ensures RemainingFeature(a, q, evs, tau) >= 0.0
  {
    var ids := Ids(evs);
    forall id | id in ids ensures DeliveredTo(a, q, id, tau) <= NeedOf(evs, id) {
      NeedOfNonNegative(evs, id);
      if exists n :: 0 <= n < |a| && a[n].evId == id {
        var n :| 0 <= n < |a| && a[n].evId == id;
        assert Load(a, x, OnEv(a[n].evId)) <= 1;
        DeliveredToBound(a, x, q, id, NeedOf(evs, id), tau);
      } else {
        DeliveredInZero(a, q, {id}, tau);
      }
    }
    DeliveredWithinNeeds(a, q, evs, ids, tau);
    DeliveredInAll(a, q, ids, tau);
  }

  // ---------------------------------------------------------------------------
  // The objective (solver.py:52-84).
  // ---------------------------------------------------------------------------

  /** cost_now: price * q * tau/60 summed over all triples. */
  function CostNow(q: seq<real>, price: real, tau: int): real
  {
    if q == [] then 0.0 else price * StepEnergy(q[0], tau) + CostNow(q[1..], price, tau)
  }

  /** f_rem: total demand minus the energy the decision delivers. */
  function RemainingFeature(a: seq<Triple>, q: seq<real>, evs: seq<EV>, tau: int): real
    requires |a| == |q|
  {
    Features.SumNeeded(evs) - Delivered(a, q, tau)
  }

  /** One EV's term of f_urg: 1/(departure - epoch) times (1 - is_conn), for EVs not yet departed. */
  function SolverUrgencyTerm(a: seq<Triple>, x: seq<int>, e: EV, epoch: int): real
    requires |a| == |x|
  {
    if e.departureTime > epoch then
      (1.0 / (e.departureTime - epoch) as real) * (1 - Load(a, x, OnEv(e.id))) as real
    else 0.0
  }

  /** f_urg. */
  function SolverUrgency(a: seq<Triple>, x: seq<int>, evs: seq<EV>, epoch: int): real
    requires |a| == |x|
  {
    if evs == [] then 0.0 else SolverUrgencyTerm(a, x, evs[0], epoch) + SolverUrgency(a, x, evs[1..], epoch)
  }

  /** The feature vector rebuilt from the decision variables: [1, f_sched, f_avail, f_rem, f_urg, f_time]. */
  function SymbolicFeatures(a: seq<Triple>, x: seq<int>, q: seq<real>, chargers: seq<Charger>, evs: seq<EV>,
                            epoch: int, tau: int): (f: seq<real>)
    requires |a| == |x| == |q| && tau != 0
    ensures |f| == 6 && f[0] == 1.0
    ensures f[1] + f[2] == TotalConnectors(chargers) as real
    ensures f[5] == epoch as real / Features.DAY_STEPS as real
  {
    var fSched := Scheduled(x);
    [1.0,
     fSched as real,
     (TotalConnectors(chargers) - fSched) as real,
     RemainingFeature(a, q, evs, tau),
     SolverUrgency(a, x, evs, epoch),
     Features.TimeFeature(epoch, tau)]
  }

  /** vfa: zetas[0] plus the weighted features. */
  function Vfa(zetas: seq<real>, f: seq<real>): real
    requires |zetas| >= 6 && |f| == 6
  {
    zetas[0] + zetas[1] * f[1] + zetas[2] * f[2] + zetas[3] * f[3] + zetas[4] * f[4] + zetas[5] * f[5]
  }

  /** The minimised objective cost_now + vfa. */
  function Objective(a: seq<Triple>, x: seq<int>, q: seq<real>, chargers: seq<Charger>, evs: seq<EV>,
                     epoch: int, price: real, zetas: seq<real>, tau: int): real
    requires |a| == |x| == |q| && tau != 0 && |zetas| >= 6
  {
    CostNow(q, price, tau) + Vfa(zetas, SymbolicFeatures(a, x, q, chargers, evs, epoch, tau))
  }

  /** The immediate cost is the price times the energy delivered. */
  lemma {:induction false} CostIsPriceTimesEnergy(a: seq<Triple>, q: seq<real>, price: real, tau: int)
    requires |a| == |q|
    ensures CostNow(q, price, tau) == price * Delivered(a, q, tau)
  {
    if a != [] {
      CostIsPriceTimesEnergy(a[1..], q[1..], price, tau);
    }
  }

  /** f_urg counts only EVs that have not departed, and a connected EV's term vanishes. */
  lemma UrgencyTermFacts(a: seq<Triple>, x: seq<int>, e: EV, epoch: int)
    requires |a| == |x|
    ensures e.departureTime <= epoch ==> SolverUrgencyTerm(a, x, e, epoch) == 0.0
    ensures Load(a, x, OnEv(e.id)) == 1 ==> SolverUrgencyTerm(a, x, e, epoch) == 0.0
    ensures e.departureTime > epoch && Load(a, x, OnEv(e.id)) == 0 ==>
      SolverUrgencyTerm(a, x, e, epoch) == 1.0 / (e.departureTime - epoch) as real
  {
  }

  /** For integer steps the two urgency formulas agree: 1/(dep - epoch) equals 1/max(dep - epoch, 0.1). */
  lemma UrgencyFormulasAgree(e: EV, epoch: int)
    requires e.departureTime > epoch
    ensures 1.0 / (e.departureTime - epoch) as real == 1.0 / Features.RealMax((e.departureTime - epoch) as real, 0.1)
  {
  }

  lemma {:induction false} ScheduledOfZeros(x: seq<int>)
    requires forall n :: 0 <= n < |x| ==> x[n] == 0
    ensures Scheduled(x) == 0
  {
    if x != [] {
      ScheduledOfZeros(x[1..]);
    }
  }

  lemma {:induction false} DeliveredOfZeros(a: seq<Triple>, q: seq<real>, tau: int)
    requires |a| == |q| && forall n :: 0 <= n < |q| ==> q[n] == 0.0
    ensures Delivered(a, q, tau) == 0.0
  {
    if a != [] {
      DeliveredOfZeros(a[1..], q[1..], tau);
    }
  }

  lemma {:induction false} AvailableWhenEmpty(chargers: seq<Charger>)
    requires forall i :: 0 <= i < |chargers| ==> chargers[i].connectedEvs == map[]
    ensures Features.SumAvailable(chargers) == TotalConnectors(chargers)
  {
    if chargers != [] {
      AvailableWhenEmpty(chargers[1..]);
    }
  }

  lemma {:induction false} UrgencyWhenIdle(a: seq<Triple>, x: seq<int>, evs: seq<EV>, epoch: int)
    requires |a| == |x| && forall n :: 0 <= n < |x| ==> x[n] == 0
    requires forall i :: 0 <= i < |evs| ==> evs[i].assignedChargerId.None?
    ensures SolverUrgency(a, x, evs, epoch) == Features.Urgency(evs, epoch)
  {
    if evs != [] {
      LoadOfZeros(a, x, OnEv(evs[0].id));
      if evs[0].departureTime > epoch {
        UrgencyFormulasAgree(evs[0], epoch);
      }
      UrgencyWhenIdle(a, x, evs[1..], epoch);
    }
  }

  /**
   * The rebuilt features reduce to get_basis_functions when nothing is chosen, no EV is
   * assigned yet and no connector is occupied: the objective's VFA is the one the learner fits.
   */
  lemma IdleFeaturesAreBasis(a: seq<Triple>, chargers: seq<Charger>, evs: seq<EV>, epoch: int, tau: int)
    requires tau != 0
    requires forall i :: 0 <= i < |evs| ==> evs[i].assignedChargerId.None?
    requires forall i :: 0 <= i < |chargers| ==> chargers[i].connectedEvs == map[]
    ensures SymbolicFeatures(a, Zeros(|a|), RealZeros(|a|), chargers, evs, epoch, tau) ==
            Features.BasisFunctions(evs, chargers, epoch, tau)
  {
    ScheduledOfZeros(Zeros(|a|));
    AvailableWhenEmpty(chargers);
    DeliveredOfZeros(a, RealZeros(|a|), tau);
    UrgencyWhenIdle(a, Zeros(|a|), evs, epoch);
  }

  // ---------------------------------------------------------------------------
  // Extraction of the chosen triples (solver.py:90-96).
  // ---------------------------------------------------------------------------

  /** pyo.value(x) > 0.5 */
  predicate Chosen(v: int)
  {
    v as real > 0.5
  }

  /** Positions of the chosen triples, in increasing order. */
  function ChosenIndices(x: seq<int>): (ix: seq<int>)
    ensures forall m :: 0 <= m < |ix| ==> 0 <= ix[m] < |x| && Chosen(x[ix[m]])
    ensures forall m1, m2 :: 0 <= m1 < m2 < |ix| ==> ix[m1] < ix[m2]
    ensures forall n :: 0 <= n < |x| && Chosen(x[n]) ==> n in ix
  {
    if x == [] then []
    else
      var init := ChosenIndices(x[..|x| - 1]);
      if Chosen(x[|x| - 1]) then init + [|x| - 1] else init
  }

  /** The decision dict of one triple. */
  function DecisionOf(t: Triple, rate: real): Decision
  {
    Decision(t.chargerId, t.connector, t.evId, rate)
  }

  /** The decisions the extraction loop returns: the chosen triples in index order, with their q as rate. */
  function Extracted(a: seq<Triple>, x: seq<int>, q: seq<real>): (d: seq<Decision>)
    requires |a| == |x| == |q|
  {
    var ix := ChosenIndices(x);
    seq(|ix|, m requires 0 <= m < |ix| => DecisionOf(a[ix[m]], q[ix[m]]))
  }

  method ExtractDecisions(a: seq<Triple>, x: seq<int>, q: seq<real>) returns (decisions: seq<Decision>)
    requires |a| == |x| == |q|
    ensures decisions == Extracted(a, x, q)
  {
    decisions := [];
    var n := 0;
    while n < |a|
      invariant 0 <= n <= |a|
      invariant decisions == Extracted(a[..n], x[..n], q[..n])
    {
      assert x[..n + 1][..n] == x[..n];
      assert x[..n + 1][n] == x[n];
      if Chosen(x[n]) {
        decisions := decisions + [DecisionOf(a[n], q[n])];
      }
      ghost var ix := ChosenIndices(x[..n + 1]);
      ghost var ix0 := ChosenIndices(x[..n]);
      assert forall m :: 0 <= m < |ix0| ==> ix[m] == ix0[m];
      n := n + 1;
    }
    assert a[..n] == a && x[..n] == x && q[..n] == q;
  }

  /** Every chosen triple, and only those, appears in the extracted decisions. */
  lemma ExtractedExactly(a: seq<Triple>, x: seq<int>, q: seq<real>, n: int)
    requires |a| == |x| == |q| && 0 <= n < |a|
    ensures Chosen(x[n]) <==> DecisionOf(a[n], q[n]) in Extracted(a, x, q) && n in ChosenIndices(x)
  {
    var ix := ChosenIndices(x);
    if Chosen(x[n]) {
      var m :| 0 <= m < |ix| && ix[m] == n;
      assert Extracted(a, x, q)[m] == DecisionOf(a[n], q[n]);
    }
  }

  /**
   * With x feasible the extracted decisions repeat no EV and no (charger, connector),
   * each rate lies between 0 and the charger's max power, and delivers at most the EV's need.
   */
  lemma ExtractedFacts(a: seq<Triple>, x: seq<int>, q: seq<real>, chargers: seq<Charger>, evs: seq<EV>, tau: int)
    requires Feasible(a, x, q, chargers, evs, tau)
    ensures var d := Extracted(a, x, q);
      (forall m1, m2 :: 0 <= m1 < m2 < |d| ==> d[m1].evId != d[m2].evId) &&
      (forall m1, m2 :: 0 <= m1 < m2 < |d| ==> (d[m1].chargerId, d[m1].connectorId) != (d[m2].chargerId, d[m2].connectorId)) &&
      (forall m :: 0 <= m < |d| ==> 0.0 <= d[m].chargeRate <= MaxPowerOf(chargers, d[m].chargerId)) &&
      (forall m :: 0 <= m < |d| ==> StepEnergy(d[m].chargeRate, tau) <= NeedOf(evs, d[m].evId))
  {
    var d := Extracted(a, x, q);
    var ix := ChosenIndices(x);
    forall m1, m2 | 0 <= m1 < m2 < |d|
      ensures d[m1].evId != d[m2].evId
      ensures (d[m1].chargerId, d[m1].connectorId) != (d[m2].chargerId, d[m2].connectorId)
    {
      var n1, n2 := ix[m1], ix[m2];
      if a[n1].evId == a[n2].evId {
        LoadAtLeastTwo(a, x, OnEv(a[n1].evId), n1, n2);
      }
      if a[n1].chargerId == a[n2].chargerId && a[n1].connector == a[n2].connector {
        LoadAtLeastTwo(a, x, OnConnector(a[n1].chargerId, a[n1].connector), n1, n2);
      }
    }
    forall m | 0 <= m < |d|
      ensures 0.0 <= d[m].chargeRate <= MaxPowerOf(chargers, d[m].chargerId)
      ensures StepEnergy(d[m].chargeRate, tau) <= NeedOf(evs, d[m].evId)
    {
      FeasibleRates(a, x, q, chargers, evs, tau, ix[m]);
    }
  }

  /** Extracted decisions of candidate triples name a charger and an EV that exist. */
  lemma ExtractedKnown(a: seq<Triple>, x: seq<int>, q: seq<real>, chargers: seq<Charger>, evs: seq<EV>)
    requires |a| == |x| == |q|
    requires forall t :: t in a ==> t in Candidates(chargers, evs)
    ensures var d := Extracted(a, x, q);
      forall m :: 0 <= m < |d| ==> FirstCharger(chargers, d[m].chargerId).Some? && FirstEV(evs, d[m].evId).Some?
  {
    var d := Extracted(a, x, q);
    var ix := ChosenIndices(x);
    forall m | 0 <= m < |d|
      ensures FirstCharger(chargers, d[m].chargerId).Some? && FirstEV(evs, d[m].evId).Some?
    {
      var t := a[ix[m]];
      CandidatesMembers(chargers, evs, t);
      var ci :| 0 <= ci < |chargers| && chargers[ci].id == t.chargerId && 0 <= t.connector < chargers[ci].numConnectors;
      var e :| 0 <= e < |evs| && evs[e].id == t.evId && Heuristics.Needy(evs[e]);
    }
  }

  // ---------------------------------------------------------------------------
  // solve_decision_model.
  // ---------------------------------------------------------------------------

  /**
   * The decision step: enumerate candidates, return ([], 0.0) if there are none,
   * otherwise let the MILP oracle pick some feasible (x, q) and extract the chosen triples.
   */
  method SolveDecisionModel(evs: seq<EV>, chargers: seq<Charger>, epoch: int, price: real,
                            zetas: seq<real>, tau: int)
    returns (decisions: seq<Decision>, objective: real)
    requires tau != 0 && |zetas| >= 6
    requires forall i :: 0 <= i < |evs| ==> evs[i].currentEnergyNeeded >= 0.0
    ensures Candidates(chargers, evs) == [] ==> decisions == [] && objective == 0.0
    ensures Candidates(chargers, evs) != [] ==>
      var a := Dedup(Candidates(chargers, evs));
      exists x, q :: Feasible(a, x, q, chargers, evs, tau) && decisions == Extracted(a, x, q) &&
        objective == Objective(a, x, q, chargers, evs, epoch, price, zetas, tau)
    ensures forall m1, m2 :: 0 <= m1 < m2 < |decisions| ==> decisions[m1].evId != decisions[m2].evId
    ensures forall m :: 0 <= m < |decisions| ==> 0.0 <= decisions[m].chargeRate <= MaxPowerOf(chargers, decisions[m].chargerId)
    ensures forall m :: 0 <= m < |decisions| ==> StepEnergy(decisions[m].chargeRate, tau) <= NeedOf(evs, decisions[m].evId)
    ensures forall m :: 0 <= m < |decisions| ==>
      FirstCharger(chargers, decisions[m].chargerId).Some? && FirstEV(evs, decisions[m].evId).Some?
  {
    var possible := EnumerateCandidates(chargers, evs);
    if |possible| == 0 {
      return [], 0.0;
    }
    var a := Dedup(possible);
    IdleFeasible(a, chargers, evs, tau);
    var x: seq<int>, q: seq<real> :| Feasible(a, x, q, chargers, evs, tau);
    assert Feasible(a, x, q, chargers, evs, tau);
    decisions := ExtractDecisions(a, x, q);
    objective := Objective(a, x, q, chargers, evs, epoch, price, zetas, tau);
    ExtractedFacts(a, x, q, chargers, evs, tau);
    assert a == Dedup(Candidates(chargers, evs));
    ExtractedKnown(a, x, q, chargers, evs);
    assert Feasible(a, x, q, chargers, evs, tau) && decisions == Extracted(a, x, q) &&
      objective == Objective(a, x, q, chargers, evs, epoch, price, zetas, tau);
  }
}
