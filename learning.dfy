/**
 * The training loop of main.py's main(): run a training day with the current zetas,
 * compute the discounted cost-to-go targets v_hat, fit them (the least-squares fit is
 * an input), smooth the zetas towards the fitted coefficients, and checkpoint every
 * 500 iterations.
 */
module Learning {
  import opened Entities
  import Simulation
  import Checkpoints

  const GAMMA: real := 0.99
  const ALPHA: real := 0.01
  const CHECKPOINT_INTERVAL: int := 500

  function Pow(g: real, n: nat): real
  {
    if n == 0 then 1.0 else g * Pow(g, n - 1)
  }

  // ---------------------------------------------------------------------------
  // The cost-to-go targets (main.py:370-377).
  // ---------------------------------------------------------------------------

  /** sum of GAMMA^(k-t) * c[k] for t <= k < j: the inner loop's `fut` once it reaches k = j. */
  function PartialDiscounted(c: seq<real>, t: nat, j: nat): real
    requires t <= j <= |c|
    decreases j - t
  {
    if j == t then 0.0 else PartialDiscounted(c, t, j - 1) + Pow(GAMMA, j - 1 - t) * c[j - 1]
  }

  /** v_hat[t]: the discounted sum of the step costs from step t to the end of the day. */
  function Discounted(c: seq<real>, t: nat): real
    requires t <= |c|
  {
    PartialDiscounted(c, t, |c|)
  }

  /** The cost-to-go by its Bellman recurrence, an independent reference definition. */
  function CostToGo(c: seq<real>, t: nat): real
    requires t <= |c|
    decreases |c| - t
  {
    if t == |c| then 0.0 else c[t] + GAMMA * CostToGo(c, t + 1)
  }

  lemma {:induction false} PartialRecurrence(c: seq<real>, t: nat, j: nat)
    requires t < j <= |c|
    ensures PartialDiscounted(c, t, j) == c[t] + GAMMA * PartialDiscounted(c, t + 1, j)
    decreases j - t
  {
    if j > t + 1 {
      PartialRecurrence(c, t, j - 1);
      assert Pow(GAMMA, j - 1 - t) == GAMMA * Pow(GAMMA, j - 2 - t);
    }
  }

  /** v_hat[H-1] = step_costs[H-1] and v_hat[t] = step_costs[t] + GAMMA * v_hat[t+1]. */
  lemma {:induction false} DiscountedIsCostToGo(c: seq<real>, t: nat)
    requires t <= |c|
    ensures Discounted(c, t) == CostToGo(c, t)
    ensures t < |c| ==> Discounted(c, t) == c[t] + GAMMA * Discounted(c, t + 1)
    ensures t == |c| - 1 ==> Discounted(c, t) == c[t]
    decreases |c| - t
  {
    if t < |c| {
      PartialRecurrence(c, t, |c|);
      DiscountedIsCostToGo(c, t + 1);
    }
  }

  /** The sum of the costs from step t on. */
  function SumFrom(c: seq<real>, t: nat): real
    requires t <= |c|
    decreases |c| - t
  {
    if t == |c| then 0.0 else c[t] + SumFrom(c, t + 1)
  }

  /** With non-negative step costs, v_hat[t] lies between the step's own cost and the undiscounted rest of the day. */
  lemma {:induction false} DiscountedBounds(c: seq<real>, t: nat)
    requires t <= |c|
    requires forall k :: 0 <= k < |c| ==> c[k] >= 0.0
    ensures 0.0 <= Discounted(c, t) <= SumFrom(c, t)
    ensures t < |c| ==> c[t] <= Discounted(c, t)
    decreases |c| - t
  {
    DiscountedIsCostToGo(c, t);
    if t < |c| {
      DiscountedBounds(c, t + 1);
    }
  }

  /** The double loop: for each t, fut accumulates disc * step_costs[k] while disc is multiplied by GAMMA. */
  method VHat(costs: seq<real>) returns (v: seq<real>)
    ensures |v| == |costs|
    ensures forall t :: 0 <= t < |costs| ==> v[t] == Discounted(costs, t)
  {
    v := [];
    var t := 0;
    while t < |costs|
      invariant 0 <= t <= |costs| && |v| == t
      invariant forall i :: 0 <= i < t ==> v[i] == Discounted(costs, i)
    {
      var fut := 0.0;
      var disc := 1.0;
      var k := t;
      while k < |costs|
        invariant t <= k <= |costs|
        invariant fut == PartialDiscounted(costs, t, k)
        invariant disc == Pow(GAMMA, k - t)
      {
        fut := fut + disc * costs[k];
        disc := disc * GAMMA;
        k := k + 1;
      }
      v := v + [fut];
      t := t + 1;
    }
  }

  // ---------------------------------------------------------------------------
  // Smoothing of the zetas (main.py:382).
  // ---------------------------------------------------------------------------

  predicate Between(x: real, a: real, b: real)
  {
    (a <= x <= b) || (b <= x <= a)
  }

  function Abs(x: real): real
  {
    if x < 0.0 then -x else x
  }

  /**
   * (1 - ALPHA) * zetas + ALPHA * coef, componentwise: each new zeta lies between the current one
   * and the fitted coefficient, and its distance to the coefficient shrinks by 1 - ALPHA.
   */
  function Smooth(current: seq<real>, coef: seq<real>): (z: seq<real>)
    requires |current| == |coef|
    ensures |z| == |current|
    ensures forall i :: 0 <= i < |z| ==> z[i] - coef[i] == (1.0 - ALPHA) * (current[i] - coef[i])
    ensures forall i :: 0 <= i < |z| ==> Between(z[i], current[i], coef[i])
  {
    seq(|current|, i requires 0 <= i < |current| => (1.0 - ALPHA) * current[i] + ALPHA * coef[i])
  }

  /** A fit that returns the current zetas leaves them unchanged. */
  lemma SmoothFixedPoint(z: seq<real>)
    ensures Smooth(z, z) == z
  {
  }

  /** Two zeta vectors smoothed towards the same coefficients come closer by the factor 1 - ALPHA. */
  lemma SmoothContracts(a: seq<real>, b: seq<real>, coef: seq<real>, i: int)
    requires |a| == |b| == |coef| && 0 <= i < |a|
    ensures Abs(Smooth(a, coef)[i] - Smooth(b, coef)[i]) == (1.0 - ALPHA) * Abs(a[i] - b[i])
  {
  }

  /** n smoothing steps towards the same coefficients. */
  function SmoothTimes(z: seq<real>, coef: seq<real>, n: nat): (r: seq<real>)
    requires |z| == |coef|
    ensures |r| == |z|
  {
    if n == 0 then z else Smooth(SmoothTimes(z, coef, n - 1), coef)
  }

  /** After n steps towards fixed coefficients the distance to them is (1 - ALPHA)^n times the initial one. */
  lemma {:induction false} SmoothTimesDistance(z: seq<real>, coef: seq<real>, n: nat, i: int)
    requires |z| == |coef| && 0 <= i < |z|
    ensures SmoothTimes(z, coef, n)[i] - coef[i] == Pow(1.0 - ALPHA, n) * (z[i] - coef[i])
  {
    if n > 0 {
      SmoothTimesDistance(z, coef, n - 1, i);
    }
  }

  // ---------------------------------------------------------------------------
  // The training state (main.py:320-386).
  // ---------------------------------------------------------------------------

  /** The training loop's variables current_zetas, zeta_history and iteration_count. */
  class Trainer {
    var zetas: seq<real>
    var history: seq<seq<real>>
    var iteration: int

    /** np.zeros(6) with zetas[3] = 10.0, an empty history, iteration 0. */
    constructor ()
      ensures zetas == [0.0, 0.0, 0.0, 10.0, 0.0, 0.0] && history == [] && iteration == 0
    {
      zetas := [0.0, 0.0, 0.0, 10.0, 0.0, 0.0];
      history := [];
      iteration := 0;
    }

    /** Choice 'C': continue from a loaded checkpoint. */
    method Resume(c: Checkpoints.TrainingState)
      modifies this
      ensures zetas == c.zetas && history == c.history && iteration == c.iteration
    {
      zetas := c.zetas;
      history := c.history;
      iteration := c.iteration;
    }

    /**
     * One iteration up to the fit: count it, run a training ADP day with the current zetas
     * (the ghost trace is that day's, with RunDay's promises for strategy ADP in training),
     * record the zetas in the history, and compute the non-negative targets v_hat of the day.
     */
    method BeginIteration(coins: seq<bool>)
      returns (report: Simulation.DayReport, targets: seq<real>, ghost trace: seq<Simulation.StepTrace>)
      requires |zetas| >= 6 && |coins| == Simulation.HORIZON
      modifies this
      ensures iteration == old(iteration) + 1
      ensures zetas == old(zetas) && history == old(history) + [old(zetas)]
      ensures |trace| == Simulation.HORIZON && Simulation.Chained(trace, true, coins) && Simulation.Stepped(trace, "ADP")
      ensures Simulation.Recorded(trace, report.load, report.stepCosts)
      ensures report.feats == Simulation.FeatsOf(trace)
      ensures report.cost == Simulation.SumReals(report.stepCosts)
      ensures report.serviceLevel == Simulation.ServiceLevel(Simulation.SumReals(report.load), 100.0)
      ensures |report.feats| == Simulation.HORIZON && |targets| == |report.stepCosts| == Simulation.HORIZON
      ensures forall t :: 0 <= t < |report.feats| ==> |report.feats[t]| == 6 && report.feats[t][0] == 1.0
      ensures forall t :: 0 <= t < |targets| ==>
        targets[t] == Discounted(report.stepCosts, t) && targets[t] >= report.stepCosts[t] >= 0.0
    {
      iteration := iteration + 1;
      report, trace := Simulation.RunDay("ADP", zetas, true, coins);
      history := history + [zetas];
      targets := VHat(report.stepCosts);
      forall t | 0 <= t < |targets|
        ensures targets[t] >= report.stepCosts[t] >= 0.0
      {
        DiscountedBounds(report.stepCosts, t);
      }
    }

    /** The update with the fitted coefficients; the result says whether this iteration saves a checkpoint. */
    method CompleteIteration(coef: seq<real>) returns (save: bool)
      requires |coef| == |zetas|
      modifies this
      ensures zetas == Smooth(old(zetas), coef)
      ensures history == old(history) && iteration == old(iteration)
      ensures save <==> iteration % CHECKPOINT_INTERVAL == 0
    {
      zetas := Smooth(zetas, coef);
      save := iteration % CHECKPOINT_INTERVAL == 0;
    }

    /** What save_checkpoint and save_training_state write. */
    method Checkpoint() returns (s: Checkpoints.TrainingState)
      ensures s.zetas == zetas && s.iteration == iteration && s.history == history
    {
      s := Checkpoints.TrainingState(zetas, iteration, history);
    }
  }
}
