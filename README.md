# EV charging scheduler with approximate dynamic programming — a Dafny model

The modelled system schedules electric vehicles (EVs) onto the connectors of charging stations. A day has
96 steps of 15 minutes. At each step the system:

1. adds the arriving EVs;
2. records a feature vector of the state;
3. chooses which EV charges on which connector, and at what power. It uses either a greedy priority rule
   (FCLD, EDLD) or an ADP (approximate dynamic programming) decision model. That model is a mixed-integer
   program whose objective is the immediate energy cost plus a linear value-function approximation over
   the features;
4. delivers the energy and charges it at the time-of-day tariff;
5. penalises every EV that leaves with unmet demand, and drops the departed EVs.

Training repeats such days. After each day it computes the discounted cost-to-go targets, fits the feature
weights (the zetas) by least squares, and moves the zetas a small step towards the fit. Every 500
iterations it writes a checkpoint. Rotating checkpoint files, a legacy checkpoint and a training-state
file let a later run resume.

The model has one module for each of classes.py, features.py, heuristics.py and solver.py, and splits main.py into three (simulation, checkpoints, learning):

- `Entities` (`entities.dfy`, classes.py): the EV and Charger records, the decision record, the
  available-connector count, and the first-match-by-id lookups that `main.py` performs with `next(...)`.
- `Features` (`features.dfy`, features.py): the six basis functions.
- `Heuristics` (`heuristics.dfy`, heuristics.py): the greedy allocator.
  - The method `SolveHeuristic` keeps the source's two nested loops.
  - It is proved equal to `Greedy`, a loop-free definition: the n-th free connector goes to the n-th EV of
    the rule's queue.
  - The queue is a stable sort, modelled as an insertion sort proved to be a sorted, stable permutation.
- `Solver` (`solver.py`): the ADP decision model.
  - It covers the candidate triples, constraints C1–C4, the objective with its rebuilt features, and the
    extraction of the chosen triples. The triple enumeration keeps its three loops.
  - The MILP solver is an oracle: `SolveDecisionModel` takes *some* `(x, q)` that satisfies C1–C4. A
    lemma shows that such a pair exists whenever no need is negative.
- `Simulation` (`simulation.dfy`, `run_day` of main.py): prices, the physics step, penalties, departures,
  the base scenario, arrivals, the service level, and the 96-step day.
  - The decision loop is a method proved against `ApplyAll`, a fold over the decisions. It conserves
    energy: remaining demand plus delivered energy is unchanged.
  - `load_profile` is an `array`.
- `Checkpoints` (`checkpoints.dfy`, main.py): checkpoint names, the retention of the 20 newest files, the
  recovery of the latest snapshot, and the precedence among the three sources that `load_checkpoint` reads.
- `Learning` (`learning.dfy`, main.py): the `v_hat` double loop, proved equal to the discounted sum and
  to the Bellman recurrence, and the smoothing of the zetas. The training loop's variables are the fields
  of the class `Trainer`.

### Notes on how the source behaves

- **Duplicate EV ids.** Training names a new EV `len(evs) + 100`. Once departed EVs are dropped, a newly
  named EV can share its id with one still present. The model keeps those collisions:
  - every lookup by id takes the first match, as `next(...)`;
  - Pyomo's `Set(initialize=...)` drops repeated triples, modelled by `Dedup`;
  - the heuristic's `next(e ... if e.id not in allocated_ev_ids)` is modelled by `Queue`, which skips
    ids already taken.
- **Connector occupancy lags one step.** Connector maps are reset only inside the physics step
  (main.py:236). So the features and the heuristic's `get_available_connectors()` at step t see the
  connections made at step t−1. The model carries the chargers' maps across steps in the same way.
- **`total_req` grows only in evaluation.** `run_day` adds arrivals' demand to `total_req` only when not
  training (main.py:219). So the service-level bound is stated only for evaluation days.

## Model

| member | source | states |
|---|---|---|
| Entities.NewEV | classes.py:4-13 | a new EV carries the given id, times and energies, and both assignment fields are None |
| Entities.NewCharger | classes.py:15-22 | a new charger keeps its parameters, has an empty connector map, and all its connectors are available |
| Entities.AvailableConnectors | classes.py:24-25 | the available count never exceeds the number of connectors |
| Entities.AvailableNonNegative | classes.py:24-25 | when every occupied key is a real connector index, the available count lies in [0, num_connectors] |
| Entities.Connect | main.py:240 | connected_evs[k] = ev_id sets key k to the EV, leaves every other key and the charger's parameters alone, and frees one fewer connector exactly when k was free |
| Entities.ConnectKeepsKeysInRange | main.py:240 | writing a real connector index keeps every key in range |
| Entities.ResetConnections | main.py:236 | the reset empties the map, makes every connector available, and keeps the charger's parameters |
| Entities.FirstEV | main.py:241 | the lookup returns an index holding that id with no earlier match, or None exactly when no EV has the id |
| Entities.FirstCharger | main.py:239 | the same for chargers |
| Features.CountScheduled | features.py:14 | phi_1 is at most the number of EVs; it is 0 exactly when no EV is assigned, and equals the number of EVs exactly when all are assigned |
| Features.SumAvailable | features.py:17 | phi_2 is at most the total number of connectors |
| Features.SumAvailableNonNegative | features.py:17 | with well-formed connector maps, phi_2 lies between 0 and the connector total |
| Features.SumNeeded | features.py:20 | phi_3 is non-negative when no need is negative |
| Features.UrgencyTerm | features.py:24-27 | a waiting EV contributes 1/(departure − epoch), which lies in (0, 1]; any other EV contributes 0 |
| Features.Urgency | features.py:22-27 | phi_4 lies in [0, #EVs] and is 0 exactly when no EV is waiting |
| Features.TimeFeature | features.py:31-33 | (epoch·tau)/(96·tau) equals epoch/96, which lies in [0, 1) for the steps of a day |
| Features.BasisFunctions | features.py:7-35 | the vector has six entries, bias 1.0, with the bounds of each feature |
| Features.BasisFunctionsEntries | features.py:11-35 | each entry is the corresponding feature function |
| Features.BasisAvailableBounds | features.py:17 | with well-formed chargers, 0 <= phi[2] <= connector total |
| Heuristics.ActiveEVs | heuristics.py:4 | every EV kept needs more than 0.001 kWh and comes from the input, and ids stay distinct if they were |
| Heuristics.ActiveEVsComplete | heuristics.py:4 | every EV that needs more than 0.001 kWh is kept |
| Heuristics.ActiveEVsAppend | heuristics.py:4 | the filter of a concatenation is the concatenation of the filters, so order and repeats are kept |
| Heuristics.ActiveEVsSingleton | heuristics.py:4 | a single EV is kept exactly when it still needs energy |
| Heuristics.InsertElements | heuristics.py:10-13 | an insertion adds exactly one element |
| Heuristics.InsertSorted | heuristics.py:10-13 | insertion into a key-sorted queue keeps it sorted |
| Heuristics.InsertWithKey | heuristics.py:10-13 | insertion keeps the relative order of the EVs sharing any one key |
| Heuristics.InsertDistinct | heuristics.py:10-13 | insertion of a new id keeps ids distinct |
| Heuristics.SortPermutation | heuristics.py:10-13 | `sort` is a permutation of its input |
| Heuristics.SortSorted | heuristics.py:10-13 | the result is ordered by (arrival or departure, −required) |
| Heuristics.SortStable | heuristics.py:10-13 | the EVs with any one key keep their input order, as Python's stable sort does |
| Heuristics.SortDistinct | heuristics.py:10-13 | sorting keeps ids distinct |
| Heuristics.OrderElements | heuristics.py:9-13 | the queue for any rule (other rules leave the order alone) is a permutation of the active EVs |
| Heuristics.Queue | heuristics.py:23 | successive `next(...)` picks are elements of the input with untaken, pairwise distinct ids |
| Heuristics.QueueAdvance | heuristics.py:23-38 | adding the picked id to allocated_ev_ids leaves the rest of the queue |
| Heuristics.QueueOfDistinct | heuristics.py:23 | with distinct, untaken ids the queue is the whole list |
| Heuristics.NextUnallocated | heuristics.py:23 | the linear search returns the queue's head, or None when the queue is empty |
| Heuristics.Slots | heuristics.py:18-21 | the slots offered number the sum over chargers of max(available, 0) |
| Heuristics.PairExtend | heuristics.py:21-38 | offering one more slot appends a decision exactly when the queue still has an EV |
| Heuristics.OfferSlot | heuristics.py:23-38 | one pass of the inner loop extends the decisions by that slot's pairing and advances the queue by one |
| Heuristics.FillCharger | heuristics.py:19-38 | one charger's loop pairs its slots at connectors num_connectors − available + k and advances the queue |
| Heuristics.SolveHeuristic | heuristics.py:1-40 | solve_heuristic returns exactly `Greedy` |
| Heuristics.SlotOrigin | heuristics.py:19-30 | every slot is a free connector [num − available, num) of a charger with that id |
| Heuristics.SlotsDistinct | heuristics.py:18-30 | with distinct charger ids no (charger, connector) pair is offered twice |
| Heuristics.RateBounds | heuristics.py:27 | min(max_power, need/(tau/60)) is at most max_power, delivers at most the need, and is non-negative for a non-negative max_power |
| Heuristics.GreedyAt | heuristics.py:18-38 | decision n pairs slot n with the n-th queued EV, which is a needy EV of the input |
| Heuristics.GreedyOnlyNeedy | heuristics.py:4-7 | no needy EV yields []; every served id is that of a needy EV |
| Heuristics.GreedyDistinctEvs | heuristics.py:16-38 | no EV id receives two connectors |
| Heuristics.GreedyDecisionAt | heuristics.py:27-37 | decision n uses a free connector of a charger with its id, within its max power, and delivers at most its EV's need |
| Heuristics.GreedyRates | heuristics.py:27-37 | the same for every decision |
| Heuristics.GreedyDistinctConnectors | heuristics.py:30 | with distinct charger ids no connector is used twice |
| Heuristics.GreedyCount | heuristics.py:18-25 | the number of decisions is min(queue length, free slots) |
| Heuristics.GreedyFollowsOrder | heuristics.py:9-38 | with distinct EV ids the n-th decision serves the n-th EV in the rule's stable order, and min(#active, free slots) EVs are served |
| Solver.AppendEvTriples | solver.py:8-10 | the innermost loop appends one triple per needy EV, in EV order |
| Solver.AppendChargerTriples | solver.py:7-10 | the middle loop appends the triples of connectors 0 .. num_connectors − 1 |
| Solver.EnumerateCandidates | solver.py:5-10 | the three loops build exactly `Candidates` |
| Solver.CandidatesMembers | solver.py:5-10 | a triple is a candidate iff it names a charger's id, one of its connectors, and a needy EV's id |
| Solver.CandidatesLength | solver.py:5-10 | there are (connectors) × (needy EVs) candidates |
| Solver.CandidatesEmpty | solver.py:12-14 | the early return happens iff no charger has a connector or no EV is needy |
| Solver.Dedup | solver.py:17 | the index set has the same members as the list, with no repeats |
| Solver.DedupOfDistinct | solver.py:17 | without repeats the index set is the list itself |
| Solver.IdleFeasible | solver.py:20-48 | x = 0, q = 0 satisfies C1–C4 when no need is negative, so the oracle always has an answer |
| Solver.FeasibleRates | solver.py:38-48 | under C3 an unchosen triple has q = 0 and a chosen one 0 <= q <= max_power; C4 bounds the energy |
| Solver.LoadAtLeastTwo | solver.py:25-36 | two chosen triples on one connector or one EV violate C1 or C2 |
| Solver.DeliveredToBound | solver.py:32-48 | C2–C4 together let the triples of one EV id deliver at most that EV's need |
| Solver.DeliveredWithinNeeds | solver.py:61-63 | per-id bounds sum to at most the total demand |
| Solver.RemainingNonNegative | solver.py:44-63 | a feasible decision delivers at most the total demand, so f_rem >= 0 |
| Solver.SymbolicFeatures | solver.py:55-74 | the rebuilt vector has six entries with bias 1, f_sched + f_avail = total connectors, and f_time = epoch/96 |
| Solver.CostIsPriceTimesEnergy | solver.py:53-62 | cost_now = price × energy_delivered_now |
| Solver.UrgencyTermFacts | solver.py:65-70 | a departed or connected EV contributes nothing to f_urg; an unconnected one contributes 1/(dep − epoch) |
| Solver.UrgencyFormulasAgree | solver.py:66-70 | for integer steps the solver's 1/(dep − epoch) equals the extractor's 1/max(dep − epoch, 0.1) |
| Solver.UrgencyWhenIdle | solver.py:65-70 | with nothing chosen and nobody assigned, f_urg equals phi_4 |
| Solver.IdleFeaturesAreBasis | solver.py:55-74 | with nothing chosen, nobody assigned and no connector occupied, the rebuilt features are get_basis_functions |
| Solver.ChosenIndices | solver.py:91-92 | the chosen positions (x > 0.5) are exactly listed, in increasing order |
| Solver.ExtractDecisions | solver.py:90-96 | the extraction loop returns `Extracted` |
| Solver.ExtractedExactly | solver.py:91-96 | a triple's decision is extracted iff the triple is chosen |
| Solver.ExtractedFacts | solver.py:90-96 | the decisions of a feasible (x, q) repeat no EV and no connector, have 0 <= rate <= max_power, and deliver at most the need |
| Solver.ExtractedKnown | solver.py:90-96 | every extracted decision names an existing charger and EV |
| Solver.SolveDecisionModel | solver.py:3-98 | no candidates gives ([], 0.0); otherwise the decisions and objective come from some feasible (x, q), with the properties above |
| Simulation.Price | main.py:31 | 0.50 at the 68..79 steps (17:00–20:00), 0.15 otherwise |
| Simulation.FirstEVOfSame | main.py:241 | the id lookup is unaffected by changes to needs and assignments |
| Simulation.FirstChargerOfSame | main.py:239 | the id lookup is unaffected by changes to occupancy |
| Simulation.SumNeededUpdate | main.py:243 | replacing one EV changes the total need by its difference |
| Simulation.SumNeededAppend | main.py:218 | the total need of an extended list is the sum of both parts |
| Simulation.EnergyFor | main.py:242 | min(rate·tau/60, need) never exceeds the need and is non-negative for non-negative inputs |
| Simulation.ApplyDecision | main.py:238-246 | a decision keeps the vehicles and chargers (as entities) and conserves need + step_e |
| Simulation.ApplyDecisionMonotone | main.py:242-243 | with a non-negative rate the needs only fall, stay non-negative, and step_e grows |
| Simulation.ApplyDecisionServes | main.py:239-246 | a known decision connects the EV to the first charger with that id, sets its charger, delivers min(rate·tau/60, need), and changes no other EV or charger |
| Simulation.ApplyAll | main.py:238-246 | the decision loop keeps the entities and conserves need + step_e |
| Simulation.ApplyAllMonotone | main.py:238-246 | with non-negative rates, needs fall and stay non-negative, and step_e grows |
| Simulation.ResetAll | main.py:236 | every charger's map is emptied and its identity kept |
| Simulation.Penalty | main.py:249-251 | with non-negative needs the penalty is non-negative, and zero iff no EV departing now has more than 0.1 kWh unmet |
| Simulation.PenaltyExample | main.py:249-251 | one EV departing with 5 kWh unmet costs 1000 |
| Simulation.Survivors | main.py:257 | every EV kept departs after step t; needs stay non-negative and their total does not grow |
| Simulation.SurvivorsMembers | main.py:257 | an EV remains exactly when it was present and departs after step t |
| Simulation.SurvivorsAppend | main.py:257 | the filter of a concatenation is the concatenation of the filters, so order and repeats are kept |
| Simulation.SurvivorsSingleton | main.py:257 | a single EV remains exactly when it departs after step t |
| Simulation.SurvivorsKeepAll | main.py:257 | if nobody departs, the list is unchanged |
| Simulation.ResetChargers | main.py:236 | the reset loop computes `ResetAll` |
| Simulation.ApplyOne | main.py:239-246 | one pass of the decision loop is `ApplyDecision`, with cost energy × price |
| Simulation.ApplyNext | main.py:238-246 | the pass for decision m follows the fold and keeps step_c = price × step_e |
| Simulation.ApplyDecisions | main.py:234-246 | the decision loop computes `ApplyAll`, and step_c = price × step_e |
| Simulation.AddPenalties | main.py:249-251 | the penalty loop adds exactly `Penalty` |
| Simulation.PhysicsStep | main.py:234-257 | the step's chargers, energy, cost (price × energy + penalty) and surviving EVs |
| Simulation.StepFacts | main.py:238-246 | from a zero start, step_e is the need that disappeared, which is non-negative, and needs stay non-negative |
| Simulation.ServiceLevel | main.py:259 | sl is 100 when nothing was required, lies in [0, 100] when the energy is within the demand, and is 100 iff all was delivered |
| Simulation.BaseChargers | main.py:191 | two chargers with non-negative power |
| Simulation.BaseEVs | main.py:192 | non-negative needs totalling 100 kWh |
| Simulation.Arrivals | main.py:211-216 | arrivals have non-negative needs equal to their required energy |
| Simulation.Decide | main.py:227-230 | every decision names an existing charger and EV with a non-negative rate; the heuristic strategies give `Greedy` |
| Simulation.DayStep | main.py:227-257 | the decisions are the allocator's; the new chargers, step_e, step_c = price × step_e + penalty, and the EVs kept are those of applying them in order to the reset chargers; also needs stay non-negative, chargers keep their identity, 0 <= step_e <= the demand that disappeared, and step_c >= price × step_e >= 0 |
| Simulation.Record | main.py:253-256 | load_profile[t] = step_e and nothing else in it changes; step_costs is appended; total_cost and total_energy stay the sums of the step costs and loads; every recorded step stays bounded |
| Simulation.Observe | main.py:222-223 | the features are appended exactly when recorded |
| Simulation.Arrive | main.py:211-219 | the arrivals are appended; total_req grows by their required energy only in evaluation; delivered + remaining stays within total_req |
| Simulation.SumRealsSnoc | main.py:253-254 | adding one more amount to a running total adds it to the sum |
| Simulation.RequiredUpToValue | main.py:200-219 | in evaluation total_req is 100 kWh up to step 68 and 145 kWh from then on |
| Simulation.FeatsOf | main.py:222-223 | one feature vector per step of the trace |
| Simulation.SteppedAt | main.py:227-257 | in a stepped trace, step t was decided by the allocator and run through the physics of step t |
| Simulation.SteppedExtend | main.py:209-257 | adding a decided step run through the physics keeps the trace stepped |
| Simulation.ChainedExtend | main.py:209-257 | a step that starts from what the trace left, plus its arrivals, extends the chain |
| Simulation.RecordedExtend | main.py:255-256 | appending a step's energy and step_c keeps the loads and step costs those of the trace |
| Simulation.TraceStep | main.py:227-257 | one decided and simulated step as a trace entry: decided, run through the physics, with the bounds of DayStep |
| Simulation.DayIteration | main.py:209-257 | one pass of the loop: the step starts from the fleet plus its arrivals, is decided and run through the physics; total_req follows RequiredUpTo in evaluation; the features are appended when recorded |
| Simulation.Simulate | main.py:209-257 | one pass of the loop with load_profile[t] = step_e: the running totals after t steps become those after t + 1 |
| Simulation.ProgressExtend | main.py:209-257 | such a pass extends the trace and keeps what it promises: chained, stepped, and the loads, step costs and features recorded |
| Simulation.RunDay | main.py:195-263 | the ghost trace of 96 steps starts from the base scenario, each step from what the previous one left plus its arrivals, each decided by the allocator and run through the physics; load[t] is step t's delivered energy and step_costs[t] its step_c; cost is their sum; each load >= 0 and each step cost >= price × load >= 0; sl = delivered energy / total_req × 100 with total_req 100 kWh in training and 145 kWh in evaluation, hence in [0, 100] in evaluation; the features are those of the states the steps saw |
| Checkpoints.LexLessTotal | main.py:99 | string order is total and asymmetric |
| Checkpoints.FixedDigits | main.py:126 | a number below 10^w has at most w digits, and its last w digits are those digits after enough zeros |
| Checkpoints.FixedIsPadded | main.py:126 | for n < 10^w, the 0-padded `str(n)` of width w is its last w digits |
| Checkpoints.FixedOrder | main.py:126 | for numbers below 10^w, the order of their w-digit forms is the numeric order |
| Checkpoints.CheckpointPathOrder | main.py:126-128 | for iterations below 10^8, the path order is the iteration order |
| Checkpoints.PathsSorted | main.py:94-99 | the paths of increasing iterations form a sorted listing |
| Checkpoints.PruneCheckpoints | main.py:141-143 | the deleted prefix and the kept files make up the listing, at most 20 are kept, and in a sorted listing every deleted name precedes every kept one |
| Checkpoints.Readable | main.py:160-171 | the history has at most one entry per file, and is empty iff every file is corrupted |
| Checkpoints.ReadableMembers | main.py:162-171 | every readable file's zetas are in the history |
| Checkpoints.RecoverFromSnapshots | main.py:156-185 | None iff every file is corrupted; otherwise the readable zetas as history and the first file with the largest iteration |
| Checkpoints.LegacyHistory | main.py:74 | a non-empty history is kept; an absent or empty one becomes [zetas] |
| Checkpoints.LoadCheckpoint | main.py:146-185 | the state file wins, then the legacy file, then recovery from the checkpoint files |
| Learning.PartialRecurrence | main.py:370-377 | a partial discounted sum satisfies the one-step recurrence |
| Learning.DiscountedIsCostToGo | main.py:370-377 | v_hat[t] equals the Bellman cost-to-go c[t] + GAMMA·v_hat[t+1], with v_hat[H−1] = c[H−1] |
| Learning.DiscountedBounds | main.py:370-377 | with non-negative costs, c[t] <= v_hat[t] <= the undiscounted remaining sum |
| Learning.VHat | main.py:370-377 | the double loop computes v_hat[t] = Σ GAMMA^(k−t)·c[k] for every t |
| Learning.Smooth | main.py:382 | each new zeta lies between the old one and the fitted coefficient, and its distance to the coefficient shrinks by the factor 1 − ALPHA |
| Learning.SmoothFixedPoint | main.py:382 | a fit equal to the zetas leaves them unchanged |
| Learning.SmoothContracts | main.py:382 | two zeta vectors smoothed towards the same fit come closer by the factor 1 − ALPHA |
| Learning.SmoothTimesDistance | main.py:382 | after n updates towards a fixed fit, the distance is (1 − ALPHA)^n times the initial one |
| Learning.Trainer.constructor | main.py:320-323 | zetas = [0, 0, 0, 10, 0, 0], empty history, iteration 0 |
| Learning.Trainer.Resume | main.py:338-341 | choice C takes the checkpoint's zetas, history and iteration |
| Learning.Trainer.BeginIteration | main.py:363-377 | the iteration count rises by one; the old zetas are appended to the history; the report is that of a training ADP day: its ghost trace starts from the base scenario, is chained, decided by ADP and run through the physics, its loads, step costs and features are the trace's, its cost is their sum and its service level is the delivered energy over 100 kWh; there is one target per step, each equal to the discounted cost-to-go and at least that step's cost |
| Learning.Trainer.CompleteIteration | main.py:380-385 | zetas = (1 − ALPHA)·zetas + ALPHA·coef; save iff the iteration count is a multiple of 500 |
| Learning.Trainer.Checkpoint | main.py:386-387 | what is saved is the current zetas, iteration and history |

## Left out

- The MILP solve (GLPK called through Pyomo) is an oracle: any (x, q) that satisfies C1–C4. Optimality
  is not modelled: the returned objective is cost_now + vfa evaluated at the oracle's (x, q), not a
  proved minimum.
- LinearRegression.fit is not modelled: its coefficients are the input of `Trainer.CompleteIteration`.
- `random.random() < 0.15` is a sequence of coins given to `RunDay`.
- File I/O is not modelled: JSON and npz reading and writing, `os.replace`, `os.remove`, `os.makedirs`,
  directory listing, and moving corrupted files aside.
  - The loaders' results are inputs of `LoadCheckpoint`, and the files to delete are an output of
    `PruneCheckpoints`.
  - `save_training_state`'s early return on an empty history is not modelled.
  - The migration of the legacy file into the new format is not modelled.
- `_list_checkpoint_files`'s `files.sort()` is not modelled: `PruneCheckpoints` states what it
  guarantees when the listing is sorted.
- Plotting, the interactive menu, `time.sleep`, CPU-time measurement and `print` are not modelled.
- KeyboardInterrupt handling and the unbounded `while True` training loop are not modelled. Choice F is
  covered only in that it reads the checkpoint.
- Floating point is modelled as exact reals, so rounding is not modelled.
- `list.sort` is modelled as a functional insertion sort, not as an in-place sort.
- The in-place mutation of EV and Charger objects in `run_day` is modelled as sequence updates. Each
  object appears once in its list, so no aliasing is lost.
- A decision naming an unknown charger or EV, which would make `next(...)` raise, leaves the state
  unchanged in `ApplyDecision`. The allocators never produce one, as `Decide` proves.
- Simulation.RunDay: the service-level bound is stated only for evaluation days, because training never
  adds the arrivals' demand to `total_req`.
- Solver.SolveDecisionModel: the returned decisions are not claimed to be optimal, only feasible.
- Simulation.Decide: for the ADP strategy it states only the facts the physics step needs (known ids,
  non-negative rates), not the full oracle contract of `SolveDecisionModel`.
