/**
 * The greedy baseline allocators FCLD and EDLD (heuristics.py): keep the EVs
 * that still need energy, order them stably by the rule's key, and give every
 * free connector of every charger, in charger order, to the next EV whose id
 * has not yet been given a connector.
 */
module Heuristics {
  import opened Entities

  /** An EV is served only if it still needs more than this many kWh. */
  const NEED_EPSILON: real := 0.001

  predicate Needy(e: EV)
  {
    e.currentEnergyNeeded > NEED_EPSILON
  }

  /** No two EVs of the sequence share an id. */
  ghost predicate DistinctIds(s: seq<EV>)
  {
    forall i, j :: 0 <= i < j < |s| ==> s[i].id != s[j].id
  }

  /** active_evs: the EVs that still need energy, in input order. */
  function ActiveEVs(evs: seq<EV>): (r: seq<EV>)
    ensures |r| <= |evs|
    ensures forall i :: 0 <= i < |r| ==> Needy(r[i]) && r[i] in evs
    ensures DistinctIds(evs) ==> DistinctIds(r)
  {
    if evs == [] then []
    else
      var rest := ActiveEVs(evs[1..]);
      assert forall i :: 1 <= i < |evs| ==> evs[i] in evs[1..];
      if Needy(evs[0]) then [evs[0]] + rest else rest
  }

  /** Every EV that still needs energy is active. */
  lemma {:induction false} ActiveEVsComplete(evs: seq<EV>)
    ensures forall i :: 0 <= i < |evs| && Needy(evs[i]) ==> evs[i] in ActiveEVs(evs)
  {
    if evs != [] {
      ActiveEVsComplete(evs[1..]);
      assert forall i :: 1 <= i < |evs| ==> evs[i] == evs[1..][i - 1];
    }
  }

  /** The filter splits over concatenation, so it keeps order and multiplicity. */
  lemma {:induction false} ActiveEVsAppend(a: seq<EV>, b: seq<EV>)
    ensures ActiveEVs(a + b) == ActiveEVs(a) + ActiveEVs(b)
  {
    if a == [] {
      assert a + b == b;
    } else {
      assert (a + b)[1..] == a[1..] + b;
      ActiveEVsAppend(a[1..], b);
    }
  }

  /** A single EV is active exactly when it still needs energy. */
  lemma ActiveEVsSingleton(e: EV)
    ensures ActiveEVs([e]) == if Needy(e) then [e] else []
  {
    assert [e][1..] == [];
  }

  // ---------------------------------------------------------------------------
  // The stable sort of list.sort(key=...): an insertion sort on the rule's key.
  // ---------------------------------------------------------------------------

  /** The sort key (arrival or departure step, minus the required energy), compared lexicographically. */
  datatype SortKey = SortKey(major: int, minor: real)

  predicate KeyLess(a: SortKey, b: SortKey)
  {
    a.major < b.major || (a.major == b.major && a.minor < b.minor)
  }

  /** The two rules that sort; any other rule keeps the input order. */
  predicate IsSortRule(rule: string)
  {
    rule == "FCLD" || rule == "EDLD"
  }

  /** FCLD: (arrival, -required); EDLD: (departure, -required). */
  function KeyOf(e: EV, rule: string): SortKey
  {
    if rule == "FCLD" then SortKey(e.arrivalTime, -e.requiredEnergy)
    else SortKey(e.departureTime, -e.requiredEnergy)
  }

  /** Puts x in front of the first element whose key is not smaller than x's. */
  function Insert(x: EV, s: seq<EV>, rule: string): seq<EV>
  {
    if s == [] then [x]
    else if KeyLess(KeyOf(s[0], rule), KeyOf(x, rule)) then [s[0]] + Insert(x, s[1..], rule)
    else [x] + s
  }

  function SortByKey(s: seq<EV>, rule: string): seq<EV>
  {
    if s == [] then [] else Insert(s[0], SortByKey(s[1..], rule), rule)
  }

  /** The queue order the rule prescribes. */
  function Order(s: seq<EV>, rule: string): seq<EV>
  {
    if IsSortRule(rule) then SortByKey(s, rule) else s
  }

  ghost predicate SortedBy(s: seq<EV>, rule: string)
  {
    forall i, j :: 0 <= i < j < |s| ==> !KeyLess(KeyOf(s[j], rule), KeyOf(s[i], rule))
  }

  /** The elements of s whose key is k, in the order of s. */
  function WithKey(s: seq<EV>, rule: string, k: SortKey): seq<EV>
  {
    if s == [] then []
    else (if KeyOf(s[0], rule) == k then [s[0]] else []) + WithKey(s[1..], rule, k)
  }

  lemma {:induction false} InsertElements(x: EV, s: seq<EV>, rule: string)
    ensures multiset(Insert(x, s, rule)) == multiset(s) + multiset{x}
    ensures |Insert(x, s, rule)| == |s| + 1
  {
    if s != [] && KeyLess(KeyOf(s[0], rule), KeyOf(x, rule)) {
      InsertElements(x, s[1..], rule);
      assert s == [s[0]] + s[1..];
    }
  }

  /** An element no larger than any element of a sorted sequence can go in front of it. */
  lemma ConsSorted(h: EV, t: seq<EV>, rule: string)
    requires SortedBy(t, rule)
    requires forall j :: 0 <= j < |t| ==> !KeyLess(KeyOf(t[j], rule), KeyOf(h, rule))
    ensures SortedBy([h] + t, rule)
  {
    var r := [h] + t;
    forall i, j | 0 <= i < j < |r|
      ensures !KeyLess(KeyOf(r[j], rule), KeyOf(r[i], rule))
    {
      assert r[j] == t[j - 1];
      if i > 0 {
        assert r[i] == t[i - 1];
      }
    }
  }

  lemma {:induction false} InsertSorted(x: EV, s: seq<EV>, rule: string)
    requires SortedBy(s, rule)
    ensures SortedBy(Insert(x, s, rule), rule)
  {
    if s == [] {
    } else if KeyLess(KeyOf(s[0], rule), KeyOf(x, rule)) {
      var t := Insert(x, s[1..], rule);
      assert SortedBy(s[1..], rule) by {
        forall i, j | 0 <= i < j < |s[1..]|
          ensures !KeyLess(KeyOf(s[1..][j], rule), KeyOf(s[1..][i], rule))
        {
          assert s[1..][j] == s[j + 1] && s[1..][i] == s[i + 1];
        }
      }
      InsertSorted(x, s[1..], rule);
      InsertElements(x, s[1..], rule);
      forall j | 0 <= j < |t|
        ensures !KeyLess(KeyOf(t[j], rule), KeyOf(s[0], rule))
      {
        assert t[j] in multiset(t);
        assert t[j] == x || t[j] in multiset(s[1..]);
        if t[j] != x {
          var m :| 0 <= m < |s[1..]| && s[1..][m] == t[j];
          assert s[m + 1] == t[j];
        }
      }
      ConsSorted(s[0], t, rule);
    } else {
      forall j | 0 <= j < |s|
        ensures !KeyLess(KeyOf(s[j], rule), KeyOf(x, rule))
      {
        if j > 0 {
          assert !KeyLess(KeyOf(s[j], rule), KeyOf(s[0], rule));
        }
      }
      ConsSorted(x, s, rule);
    }
  }

  lemma {:induction false} InsertWithKey(x: EV, s: seq<EV>, rule: string, k: SortKey)
    ensures WithKey(Insert(x, s, rule), rule, k) ==
            (if KeyOf(x, rule) == k then [x] else []) + WithKey(s, rule, k)
  {
    if s == [] {
      assert Insert(x, s, rule) == [x];
      assert [x][1..] == [];
    } else if KeyLess(KeyOf(s[0], rule), KeyOf(x, rule)) {
      var t := Insert(x, s[1..], rule);
      InsertWithKey(x, s[1..], rule, k);
      assert ([s[0]] + t)[0] == s[0] && ([s[0]] + t)[1..] == t;
      assert KeyOf(s[0], rule) != KeyOf(x, rule);
    } else {
      assert ([x] + s)[0] == x && ([x] + s)[1..] == s;
    }
  }

  /** The sort is a permutation of its input. */
  lemma {:induction false} SortPermutation(s: seq<EV>, rule: string)
    ensures multiset(SortByKey(s, rule)) == multiset(s)
    ensures |SortByKey(s, rule)| == |s|
  {
    if s != [] {
      SortPermutation(s[1..], rule);
      InsertElements(s[0], SortByKey(s[1..], rule), rule);
      assert s == [s[0]] + s[1..];
    }
  }

  /** The sort orders by the rule's key. */
  lemma {:induction false} SortSorted(s: seq<EV>, rule: string)
    ensures SortedBy(SortByKey(s, rule), rule)
  {
    if s != [] {
      SortSorted(s[1..], rule);
      InsertSorted(s[0], SortByKey(s[1..], rule), rule);
    }
  }

  /** The sort is stable: the EVs sharing any one key keep their input order. */
  lemma {:induction false} SortStable(s: seq<EV>, rule: string, k: SortKey)
    ensures WithKey(SortByKey(s, rule), rule, k) == WithKey(s, rule, k)
  {
    if s != [] {
      SortStable(s[1..], rule, k);
      InsertWithKey(s[0], SortByKey(s[1..], rule), rule, k);
    }
  }

  lemma {:induction false} InsertDistinct(x: EV, s: seq<EV>, rule: string)
    requires DistinctIds(s) && forall i :: 0 <= i < |s| ==> s[i].id != x.id
    ensures DistinctIds(Insert(x, s, rule))
  {
    if s != [] && KeyLess(KeyOf(s[0], rule), KeyOf(x, rule)) {
      var t := Insert(x, s[1..], rule);
      InsertDistinct(x, s[1..], rule);
      InsertElements(x, s[1..], rule);
      forall j | 0 <= j < |t|
        ensures t[j].id != s[0].id
      {
        assert t[j] in multiset(t);
        if t[j] != x {
          assert t[j] in multiset(s[1..]);
          var m :| 0 <= m < |s[1..]| && s[1..][m] == t[j];
          assert s[m + 1] == t[j];
        }
      }
      var r := [s[0]] + t;
      forall i, j | 0 <= i < j < |r|
        ensures r[i].id != r[j].id
      {
        if i > 0 {
          assert r[i] == t[i - 1] && r[j] == t[j - 1];
        } else {
          assert r[j] == t[j - 1];
        }
      }
    }
  }

  /** Sorting a queue of distinct ids keeps the ids distinct. */
  lemma {:induction false} SortDistinct(s: seq<EV>, rule: string)
    requires DistinctIds(s)
    ensures DistinctIds(SortByKey(s, rule))
  {
    if s != [] {
      assert DistinctIds(s[1..]) by {
        forall i, j | 0 <= i < j < |s[1..]| ensures s[1..][i].id != s[1..][j].id {
          assert s[1..][i] == s[i + 1] && s[1..][j] == s[j + 1];
        }
      }
      SortDistinct(s[1..], rule);
      SortPermutation(s[1..], rule);
      var t := SortByKey(s[1..], rule);
      forall i | 0 <= i < |t| ensures t[i].id != s[0].id {
        assert t[i] in multiset(s[1..]);
        var m :| 0 <= m < |s[1..]| && s[1..][m] == t[i];
        assert s[m + 1] == t[i];
      }
      InsertDistinct(s[0], t, rule);
    }
  }

  /** Every element of the ordered queue is an element of the input. */
  lemma OrderElements(s: seq<EV>, rule: string)
    ensures multiset(Order(s, rule)) == multiset(s)
    ensures |Order(s, rule)| == |s|
    ensures forall i :: 0 <= i < |Order(s, rule)| ==> Order(s, rule)[i] in s
  {
    SortPermutation(s, rule);
    forall i | 0 <= i < |Order(s, rule)| ensures Order(s, rule)[i] in s {
      assert Order(s, rule)[i] in multiset(Order(s, rule));
    }
  }

  // ---------------------------------------------------------------------------
  // The allocation queue: the sorted EVs, skipping ids already taken.
  // ---------------------------------------------------------------------------

  /** The EVs that successive `next(e for e in active_evs if e.id not in allocated_ev_ids)` calls return. */
  function Queue(s: seq<EV>, taken: set<int>): (q: seq<EV>)
    ensures |q| <= |s|
    ensures forall i :: 0 <= i < |q| ==> q[i] in s && q[i].id !in taken
    ensures DistinctIds(q)
  {
    if s == [] then []
    else if s[0].id in taken then
      var q := Queue(s[1..], taken);
      assert forall i :: 0 <= i < |q| ==> q[i] in s[1..];
      q
    else
      var rest := Queue(s[1..], taken + {s[0].id});
      assert forall i :: 0 <= i < |rest| ==> rest[i] in s[1..];
      [s[0]] + rest
  }

  /** Allocating the head of the queue leaves the rest of the queue. */
  lemma {:induction false} QueueAdvance(s: seq<EV>, taken: set<int>)
    requires Queue(s, taken) != []
    ensures Queue(s, taken + {Queue(s, taken)[0].id}) == Queue(s, taken)[1..]
  {
    if s[0].id in taken {
      QueueAdvance(s[1..], taken);
      assert taken + {Queue(s, taken)[0].id} + {} == taken + {Queue(s, taken)[0].id};
    } else {
      assert Queue(s, taken)[0] == s[0];
    }
  }

  /** With distinct ids, none of them taken yet, the queue is the whole sequence. */
  lemma {:induction false} QueueOfDistinct(s: seq<EV>, taken: set<int>)
    requires DistinctIds(s) && forall i :: 0 <= i < |s| ==> s[i].id !in taken
    ensures Queue(s, taken) == s
  {
    if s != [] {
      assert DistinctIds(s[1..]) by {
        forall i, j | 0 <= i < j < |s[1..]| ensures s[1..][i].id != s[1..][j].id {
          assert s[1..][i] == s[i + 1] && s[1..][j] == s[j + 1];
        }
      }
      forall i | 0 <= i < |s[1..]| ensures s[1..][i].id !in taken + {s[0].id} {
        assert s[1..][i] == s[i + 1];
      }
      QueueOfDistinct(s[1..], taken + {s[0].id});
      assert s == [s[0]] + s[1..];
    }
  }

  /** The linear search of heuristics.py:23: the first EV whose id is not yet taken. */
  method NextUnallocated(active: seq<EV>, taken: set<int>) returns (candidate: Option<EV>)
    ensures var q := Queue(active, taken); candidate == if q == [] then None else Some(q[0])
  {
    var i := 0;
    while i < |active| && active[i].id in taken
      invariant 0 <= i <= |active|
      invariant Queue(active[i..], taken) == Queue(active, taken)
    {
      assert active[i..][1..] == active[i + 1..];
      i := i + 1;
    }
    if i < |active| {
      assert active[i..][0] == active[i];
      candidate := Some(active[i]);
    } else {
      assert active[i..] == [];
      candidate := None;
    }
  }

  // ---------------------------------------------------------------------------
  // Free slots and the greedy allocation.
  // ---------------------------------------------------------------------------

  function IntMax(a: int, b: int): int { if a >= b then a else b }
  function IntMin(a: int, b: int): int { if a <= b then a else b }
  function RealMin(a: real, b: real): real { if a <= b then a else b }

  /** A connector the greedy pass may fill: its charger's id, the connector index, the charger's power limit. */
  datatype Slot = Slot(chargerId: int, connectorId: int, maxPower: real)

  /** The slots of one charger: `range(available)`, at connectors num_connectors - available + k. */
  function ChargerSlots(c: Charger): seq<Slot>
  {
    var avail := AvailableConnectors(c);
    seq(IntMax(avail, 0), k => Slot(c.id, c.numConnectors - avail + k, c.maxPower))
  }

  /** Sum over the chargers of max(available, 0). */
  function FreeSlots(chargers: seq<Charger>): int
  {
    if chargers == [] then 0
    else FreeSlots(chargers[..|chargers| - 1]) + IntMax(AvailableConnectors(chargers[|chargers| - 1]), 0)
  }

  /** All slots, charger by charger, in charger order. */
  function Slots(chargers: seq<Charger>): (s: seq<Slot>)
    ensures |s| == FreeSlots(chargers)
  {
    if chargers == [] then []
    else Slots(chargers[..|chargers| - 1]) + ChargerSlots(chargers[|chargers| - 1])
  }

  /** `min(max_power, need / (tau/60))`: the rate that empties the EV's need within one step, capped by the charger. */
  function Rate(slot: Slot, e: EV, tau: int): real
    requires tau != 0
  {
    RealMin(slot.maxPower, e.currentEnergyNeeded / (tau as real / 60.0))
  }

  /** The n-th slot goes to the n-th queued EV, as long as both last. */
  function Pair(slots: seq<Slot>, q: seq<EV>, tau: int): seq<Decision>
    requires tau != 0
  {
    seq(IntMin(|slots|, |q|), n requires 0 <= n < IntMin(|slots|, |q|) =>
      Decision(slots[n].chargerId, slots[n].connectorId, q[n].id, Rate(slots[n], q[n], tau)))
  }

  /** The decisions solve_heuristic returns, stated without its loops. */
  function Greedy(evs: seq<EV>, chargers: seq<Charger>, rule: string, tau: int): seq<Decision>
    requires tau != 0
  {
    Pair(Slots(chargers), Queue(Order(ActiveEVs(evs), rule), {}), tau)
  }

  lemma PairExtend(slots: seq<Slot>, s: Slot, q: seq<EV>, tau: int)
    requires tau != 0
    ensures Pair(slots + [s], q, tau) == Pair(slots, q, tau) +
      (if |slots| < |q| then [Decision(s.chargerId, s.connectorId, q[|slots|].id, Rate(s, q[|slots|], tau))] else [])
  {
    var lhs := Pair(slots + [s], q, tau);
    var rhs := Pair(slots, q, tau) +
      (if |slots| < |q| then [Decision(s.chargerId, s.connectorId, q[|slots|].id, Rate(s, q[|slots|], tau))] else []);
    assert |lhs| == |rhs|;
    forall n | 0 <= n < |lhs| ensures lhs[n] == rhs[n] {
      if n < |slots| {
        assert (slots + [s])[n] == slots[n];
      }
    }
  }

  /**
   * One slot's turn: take the next unallocated EV, if any, and assign it to the slot's
   * connector at min(max_power, need / (tau/60)).
   */
  method OfferSlot(slot: Slot, active: seq<EV>, tau: int, ghost q: seq<EV>, ghost filled: seq<Slot>,
                   decisions0: seq<Decision>, taken0: set<int>)
    returns (decisions: seq<Decision>, taken: set<int>)
    requires tau != 0
    requires decisions0 == Pair(filled, q, tau)
    requires Queue(active, taken0) == q[IntMin(|filled|, |q|)..]
    ensures decisions == Pair(filled + [slot], q, tau)
    ensures Queue(active, taken) == q[IntMin(|filled| + 1, |q|)..]
  {
    decisions, taken := decisions0, taken0;
    PairExtend(filled, slot, q, tau);
    var candidate := NextUnallocated(active, taken);
    assert candidate.Some? <==> |filled| < |q|;
    assert candidate.Some? ==> candidate.value == q[|filled|];
    if candidate.Some? {
      var power := RealMin(slot.maxPower, candidate.value.currentEnergyNeeded / (tau as real / 60.0));
      QueueAdvance(active, taken);
      decisions := decisions + [Decision(slot.chargerId, slot.connectorId, candidate.value.id, power)];
      taken := taken + {candidate.value.id};
    }
  }

  /** One charger's turn: `for k in range(available)` offers connector num_connectors - available + k. */
  method FillCharger(charger: Charger, active: seq<EV>, tau: int, ghost q: seq<EV>, ghost done: seq<Slot>,
                     decisions0: seq<Decision>, taken0: set<int>)
    returns (decisions: seq<Decision>, taken: set<int>)
    requires tau != 0
    requires decisions0 == Pair(done, q, tau)
    requires Queue(active, taken0) == q[IntMin(|done|, |q|)..]
    ensures decisions == Pair(done + ChargerSlots(charger), q, tau)
    ensures Queue(active, taken) == q[IntMin(|done + ChargerSlots(charger)|, |q|)..]
  {
    decisions, taken := decisions0, taken0;
    var availableSlots := AvailableConnectors(charger);
    ghost var mine := ChargerSlots(charger);
    var k := 0;
    while k < availableSlots
      invariant 0 <= k <= |mine|
      invariant decisions == Pair(done + mine[..k], q, tau)
      invariant Queue(active, taken) == q[IntMin(|done| + k, |q|)..]
    {
      var slot := Slot(charger.id, charger.numConnectors - availableSlots + k, charger.maxPower);
      assert mine[k] == slot;
      assert done + mine[..k + 1] == (done + mine[..k]) + [slot];
      decisions, taken := OfferSlot(slot, active, tau, q, done + mine[..k], decisions, taken);
      k := k + 1;
    }
    assert mine[..k] == mine;
  }

  /** solve_heuristic: the greedy pass, proved equal to Greedy. */
  method SolveHeuristic(evs: seq<EV>, chargers: seq<Charger>, rule: string, tau: int)
    returns (decisions: seq<Decision>)
    requires tau != 0
    ensures decisions == Greedy(evs, chargers, rule, tau)
  {
    decisions := [];
    var active := ActiveEVs(evs);
    if |active| == 0 {
      return;
    }
    if rule == "FCLD" {
      active := SortByKey(active, rule);
    } else if rule == "EDLD" {
      active := SortByKey(active, rule);
    }
    assert active == Order(ActiveEVs(evs), rule);
    ghost var q := Queue(active, {});
    var taken: set<int> := {};
    var i := 0;
    while i < |chargers|
      invariant 0 <= i <= |chargers|
      invariant decisions == Pair(Slots(chargers[..i]), q, tau)
      invariant Queue(active, taken) == q[IntMin(|Slots(chargers[..i])|, |q|)..]
    {
      assert chargers[..i + 1][..i] == chargers[..i];
      decisions, taken := FillCharger(chargers[i], active, tau, q, Slots(chargers[..i]), decisions, taken);
      i := i + 1;
    }
    assert chargers[..i] == chargers;
  }

  // ---------------------------------------------------------------------------
  // What the greedy allocation guarantees.
  // ---------------------------------------------------------------------------

  /** The slot is one of the charger's free connectors: [num_connectors - available, num_connectors). */
  ghost predicate SlotOf(c: Charger, s: Slot)
  {
    s.chargerId == c.id && s.maxPower == c.maxPower &&
    c.numConnectors - AvailableConnectors(c) <= s.connectorId < c.numConnectors
  }

  /** Every slot is a free connector of one of the chargers. */
  lemma {:induction false} SlotOrigin(chargers: seq<Charger>, n: int)
    requires 0 <= n < |Slots(chargers)|
    ensures exists ci :: 0 <= ci < |chargers| && SlotOf(chargers[ci], Slots(chargers)[n])
  {
    var init := chargers[..|chargers| - 1];
    var last := chargers[|chargers| - 1];
    if n < |Slots(init)| {
      SlotOrigin(init, n);
      var ci :| 0 <= ci < |init| && SlotOf(init[ci], Slots(init)[n]);
      assert chargers[ci] == init[ci];
      assert Slots(chargers)[n] == Slots(init)[n];
    } else {
      var k := n - |Slots(init)|;
      assert Slots(chargers)[n] == ChargerSlots(last)[k];
      assert SlotOf(chargers[|chargers| - 1], Slots(chargers)[n]);
    }
  }

  /** If charger ids are distinct, no (charger, connector) pair is offered twice. */
  lemma {:induction false} SlotsDistinct(chargers: seq<Charger>)
    requires forall i, j :: 0 <= i < j < |chargers| ==> chargers[i].id != chargers[j].id
    ensures forall n, m :: 0 <= n < m < |Slots(chargers)| ==>
      (Slots(chargers)[n].chargerId, Slots(chargers)[n].connectorId) !=
      (Slots(chargers)[m].chargerId, Slots(chargers)[m].connectorId)
  {
    if chargers != [] {
      var init := chargers[..|chargers| - 1];
      var last := chargers[|chargers| - 1];
      SlotsDistinct(init);
      var s := Slots(chargers);
      assert s == Slots(init) + ChargerSlots(last);
      forall n, m | 0 <= n < m < |s|
        ensures (s[n].chargerId, s[n].connectorId) != (s[m].chargerId, s[m].connectorId)
      {
        if n < |Slots(init)| && m >= |Slots(init)| {
          SlotOrigin(init, n);
          var ci :| 0 <= ci < |init| && SlotOf(init[ci], Slots(init)[n]);
          assert chargers[ci] == init[ci];
          assert s[m].chargerId == last.id;
        } else if n < |Slots(init)| {
          assert s[n] == Slots(init)[n] && s[m] == Slots(init)[m];
        }
      }
    }
  }

  /** Facts about each rate: capped by the charger, never more than the EV's need in one step, and not negative. */
  lemma RateBounds(slot: Slot, e: EV, tau: int)
    requires tau > 0 && e.currentEnergyNeeded >= 0.0
    ensures Rate(slot, e, tau) <= slot.maxPower
    ensures StepEnergy(Rate(slot, e, tau), tau) <= e.currentEnergyNeeded
    ensures slot.maxPower >= 0.0 ==> Rate(slot, e, tau) >= 0.0
  {
    var h := tau as real / 60.0;
    var full := e.currentEnergyNeeded / h;
    assert full * h == e.currentEnergyNeeded;
    if slot.maxPower <= full {
      assert slot.maxPower * h <= full * h;
    }
  }

  /** The n-th decision pairs the n-th slot with the n-th queued EV, which is a needy EV of the input. */
  lemma GreedyAt(evs: seq<EV>, chargers: seq<Charger>, rule: string, tau: int, n: int)
    requires tau != 0
    requires 0 <= n < |Greedy(evs, chargers, rule, tau)|
    ensures var q := Queue(Order(ActiveEVs(evs), rule), {});
      var slot := Slots(chargers)[n];
      n < |q| && n < |Slots(chargers)| && q[n] in evs && Needy(q[n]) &&
      Greedy(evs, chargers, rule, tau)[n] ==
        Decision(slot.chargerId, slot.connectorId, q[n].id, Rate(slot, q[n], tau))
  {
    var q := Queue(Order(ActiveEVs(evs), rule), {});
    OrderElements(ActiveEVs(evs), rule);
    assert q[n] in Order(ActiveEVs(evs), rule);
    assert q[n] in ActiveEVs(evs);
  }

  /** Only EVs that need more than 0.001 kWh are served; if there are none the result is empty. */
  lemma GreedyOnlyNeedy(evs: seq<EV>, chargers: seq<Charger>, rule: string, tau: int)
    requires tau != 0
    ensures (forall i :: 0 <= i < |evs| ==> !Needy(evs[i])) ==> Greedy(evs, chargers, rule, tau) == []
    ensures forall n :: 0 <= n < |Greedy(evs, chargers, rule, tau)| ==>
      exists i :: 0 <= i < |evs| && Needy(evs[i]) && evs[i].id == Greedy(evs, chargers, rule, tau)[n].evId
  {
    var g := Greedy(evs, chargers, rule, tau);
    forall n | 0 <= n < |g|
      ensures exists i :: 0 <= i < |evs| && Needy(evs[i]) && evs[i].id == g[n].evId
    {
      GreedyAt(evs, chargers, rule, tau, n);
      var q := Queue(Order(ActiveEVs(evs), rule), {});
      var i :| 0 <= i < |evs| && evs[i] == q[n];
    }
  }

  /** No EV id is given two connectors. */
  lemma GreedyDistinctEvs(evs: seq<EV>, chargers: seq<Charger>, rule: string, tau: int)
    requires tau != 0
    ensures var g := Greedy(evs, chargers, rule, tau);
      forall n, m :: 0 <= n < m < |g| ==> g[n].evId != g[m].evId
  {
    var g := Greedy(evs, chargers, rule, tau);
    forall n, m | 0 <= n < m < |g| ensures g[n].evId != g[m].evId {
      GreedyAt(evs, chargers, rule, tau, n);
      GreedyAt(evs, chargers, rule, tau, m);
    }
  }

  /** The rate, charger and connector of decision n are those of a free connector of a charger with that id and of a needy EV with that id. */
  lemma GreedyDecisionAt(evs: seq<EV>, chargers: seq<Charger>, rule: string, tau: int, n: int)
    requires tau > 0
    requires 0 <= n < |Greedy(evs, chargers, rule, tau)|
    ensures var d := Greedy(evs, chargers, rule, tau)[n];
      (exists ci :: 0 <= ci < |chargers| && chargers[ci].id == d.chargerId &&
         chargers[ci].numConnectors - AvailableConnectors(chargers[ci]) <= d.connectorId < chargers[ci].numConnectors &&
         d.chargeRate <= chargers[ci].maxPower &&
         (chargers[ci].maxPower >= 0.0 ==> d.chargeRate >= 0.0)) &&
      (exists i :: 0 <= i < |evs| && evs[i].id == d.evId && Needy(evs[i]) &&
         StepEnergy(d.chargeRate, tau) <= evs[i].currentEnergyNeeded)
  {
    GreedyAt(evs, chargers, rule, tau, n);
    var q := Queue(Order(ActiveEVs(evs), rule), {});
    var slot := Slots(chargers)[n];
    RateBounds(slot, q[n], tau);
    SlotOrigin(chargers, n);
    var ci :| 0 <= ci < |chargers| && SlotOf(chargers[ci], slot);
    var i :| 0 <= i < |evs| && evs[i] == q[n];
    var d := Greedy(evs, chargers, rule, tau)[n];
    assert d.chargerId == slot.chargerId && d.connectorId == slot.connectorId;
    assert d.evId == q[n].id && d.chargeRate == Rate(slot, q[n], tau);
    assert chargers[ci].id == d.chargerId && d.chargeRate <= chargers[ci].maxPower;
    assert evs[i].id == d.evId && Needy(evs[i]);
  }

  /** Each decision uses a free connector of a charger with its id, at no more than that charger's max power, and delivers at most the EV's need within one step. */
  lemma GreedyRates(evs: seq<EV>, chargers: seq<Charger>, rule: string, tau: int)
    requires tau > 0
    ensures var g := Greedy(evs, chargers, rule, tau);
      forall n :: 0 <= n < |g| ==>
        (exists ci :: 0 <= ci < |chargers| && chargers[ci].id == g[n].chargerId &&
           chargers[ci].numConnectors - AvailableConnectors(chargers[ci]) <= g[n].connectorId < chargers[ci].numConnectors &&
           g[n].chargeRate <= chargers[ci].maxPower &&
           (chargers[ci].maxPower >= 0.0 ==> g[n].chargeRate >= 0.0)) &&
        (exists i :: 0 <= i < |evs| && evs[i].id == g[n].evId && Needy(evs[i]) &&
           StepEnergy(g[n].chargeRate, tau) <= evs[i].currentEnergyNeeded)
  {
    forall n | 0 <= n < |Greedy(evs, chargers, rule, tau)| {
      GreedyDecisionAt(evs, chargers, rule, tau, n);
    }
  }

  /** With distinct charger ids, no (charger, connector) pair is used twice. */
  lemma GreedyDistinctConnectors(evs: seq<EV>, chargers: seq<Charger>, rule: string, tau: int)
    requires tau != 0
    requires forall i, j :: 0 <= i < j < |chargers| ==> chargers[i].id != chargers[j].id
    ensures var g := Greedy(evs, chargers, rule, tau);
      forall n, m :: 0 <= n < m < |g| ==> (g[n].chargerId, g[n].connectorId) != (g[m].chargerId, g[m].connectorId)
  {
    var g := Greedy(evs, chargers, rule, tau);
    SlotsDistinct(chargers);
    forall n, m | 0 <= n < m < |g|
      ensures (g[n].chargerId, g[n].connectorId) != (g[m].chargerId, g[m].connectorId)
    {
      GreedyAt(evs, chargers, rule, tau, n);
      GreedyAt(evs, chargers, rule, tau, m);
    }
  }

  /** At most min(#needy EVs, total free slots) decisions are made. */
  lemma GreedyCount(evs: seq<EV>, chargers: seq<Charger>, rule: string, tau: int)
    requires tau != 0
    ensures |Greedy(evs, chargers, rule, tau)| <= IntMin(|ActiveEVs(evs)|, FreeSlots(chargers))
    ensures |Greedy(evs, chargers, rule, tau)| ==
      IntMin(|Queue(Order(ActiveEVs(evs), rule), {})|, FreeSlots(chargers))
  {
    OrderElements(ActiveEVs(evs), rule);
  }

  /**
   * With distinct EV ids the allocation follows the rule's queue exactly: the n-th decision
   * serves the n-th needy EV in stable key order (input order for any other rule), and
   * min(#needy EVs, free slots) EVs are served.
   */
  lemma GreedyFollowsOrder(evs: seq<EV>, chargers: seq<Charger>, rule: string, tau: int)
    requires tau != 0
    requires DistinctIds(evs)
    ensures var g := Greedy(evs, chargers, rule, tau);
      var order := if IsSortRule(rule) then SortByKey(ActiveEVs(evs), rule) else ActiveEVs(evs);
      |g| == IntMin(|ActiveEVs(evs)|, FreeSlots(chargers)) &&
      |order| == |ActiveEVs(evs)| &&
      forall n :: 0 <= n < |g| ==> g[n].evId == order[n].id
  {
    var a := ActiveEVs(evs);
    if IsSortRule(rule) {
      SortDistinct(a, rule);
    }
    OrderElements(a, rule);
    QueueOfDistinct(Order(a, rule), {});
  }
}
