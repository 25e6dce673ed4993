/** The bookkeeping of the targeted PGD attack (`attack_pgd`): the random
    start clipped into the value box, the projected sign step, the per-restart
    final loss, the choice of the best restart, the closing assertion on the
    perturbation and the final prediction. The network is abstract: its
    gradient, its loss and its prediction are oracles (see `Network`). Tensors
    are flattened to sequences of reals; the batch has one image. */
module Pgd {

  datatype Option<T> = None | Some(value: T)

  datatype Result<T, E> = Ok(value: T) | Err(error: E)

  /** How `attack_pgd` can fail instead of returning. */
  datatype AttackError =
    | UnboundVariable   // `all_loss` or `delta` read before any assignment
    | AssertionFailed   // `assert delta.abs().max() <= epsilon`

  /** The network, seen from the attack: component i of the gradient of the
      targeted loss with respect to the perturbation d, the per-example loss
      at d (the negated cross-entropy towards the target of the normalised
      perturbed input), and the class the model predicts for an input (its
      arg-max). */
  datatype Network = Network(
    grad: (seq<real>, nat) -> real,
    loss: seq<real> -> real,
    classify: seq<real> -> int)

  /** The uniform random values the attack draws: `noise(k, i)` is the value
      for element i in restart k. */
  type Draws = (nat, nat) -> real

  /** The attack's arguments: `epsilon`, `alpha`, `attack_iters`, `restarts`,
      `lower_limit` and `upper_limit`. */
  datatype Params = Params(eps: real, alpha: real, iters: nat, restarts: nat, lower: real, upper: real)

  /** The values `create_vnnlib` passes: alpha = 0.5/255, 50 steps, 5 restarts,
      the box [0, 1]. */
  function ScriptParams(eps: real): (p: Params)
    ensures p.eps == eps && p.alpha > 0.0
    ensures p.restarts >= 1 && p.iters >= 1
    ensures p.lower == 0.0 && p.upper == 1.0
  {
    Params(eps, 0.5 / 255.0, 50, 5, 0.0, 1.0)
  }

  // ---------------------------------------------------------------------------
  // Elementwise arithmetic

  function Min(a: real, b: real): real {
    if a <= b then a else b
  }

  function Max(a: real, b: real): real {
    if a >= b then a else b
  }

  function Abs(a: real): real {
    if a >= 0.0 then a else -a
  }

  /** The attack's elementwise clamp: first the minimum with the upper
      limit, then the maximum with the lower one, so the lower limit wins
      when the limits cross. */
  function Clamp(v: real, lo: real, hi: real): (r: real)
    ensures lo <= r
    ensures lo <= hi ==> r <= hi
    ensures lo <= v <= hi ==> r == v
  {
    Max(Min(v, hi), lo)
  }

  /** `torch.sign`. */
  function Sign(g: real): (s: real)
    ensures s == -1.0 || s == 0.0 || s == 1.0
    ensures s * g == Abs(g)
  {
    if g > 0.0 then 1.0 else if g < 0.0 then -1.0 else 0.0
  }

  predicate InBox(x: seq<real>, lower: real, upper: real) {
    forall i :: 0 <= i < |x| ==> lower <= x[i] <= upper
  }

  /** `delta.abs().max() <= epsilon` for a non-empty delta. */
  predicate WithinEps(d: seq<real>, eps: real) {
    forall i :: 0 <= i < |d| ==> Abs(d[i]) <= eps
  }

  /** x + d stays in the value box. */
  predicate SumInBox(x: seq<real>, d: seq<real>, lower: real, upper: real)
    requires |d| == |x|
  {
    forall i :: 0 <= i < |x| ==> lower <= x[i] + d[i] <= upper
  }

  function Zeros(n: nat): (z: seq<real>)
    ensures |z| == n && forall i :: 0 <= i < n ==> z[i] == 0.0
  {
    seq(n, i => 0.0)
  }

  /** The perturbed input x + d, clamped elementwise to [lower, upper]. */
  function ClampedSum(x: seq<real>, d: seq<real>, lower: real, upper: real): (y: seq<real>)
    requires |d| == |x|
    ensures |y| == |x|
    ensures lower <= upper ==> InBox(y, lower, upper)
    ensures SumInBox(x, d, lower, upper) ==> forall i :: 0 <= i < |x| ==> y[i] == x[i] + d[i]
  {
    seq(|x|, i requires 0 <= i < |x| => Clamp(x[i] + d[i], lower, upper))
  }

  // ---------------------------------------------------------------------------
  // One restart

  /** The gradient at d, as a tensor of the shape of d. */
  function Gradient(net: Network, d: seq<real>): (g: seq<real>)
    ensures |g| == |d|
  {
    seq(|d|, i requires 0 <= i < |d| => net.grad(d, i))
  }

  /** The n values drawn for restart k, as one tensor. */
  function RestartDraws(noise: Draws, k: nat, n: nat): (u: seq<real>)
    ensures |u| == n
    ensures forall i :: 0 <= i < n ==> u[i] == noise(k, i)
  {
    seq(n, i requires 0 <= i < n => noise(k, i))
  }

  /** The start of a restart, from uniform draws u in [0, 1):
      `(upper - lower) * u + lower`, clamped to `[lower - X, upper - X]`.
      It lies in the value box but, unlike the steps, is not clipped to
      `[-eps, eps]`. */
  function InitialDelta(u: seq<real>, x: seq<real>, lower: real, upper: real): (d: seq<real>)
    requires |u| == |x|
    ensures |d| == |x|
    ensures lower <= upper ==> SumInBox(x, d, lower, upper)
  {
    seq(|x|, i requires 0 <= i < |x| => Clamp((upper - lower) * u[i] + lower, lower - x[i], upper - x[i]))
  }

  /** One projected step: `d + alpha * sign(g)`, clipped to `[-eps, eps]`,
      then clamped to `[lower - x, upper - x]`. Whatever d it starts from,
      when x is in the box and eps >= 0 the result is within eps and keeps
      x + d in the box. */
  function ProjectStep(d: seq<real>, g: seq<real>, x: seq<real>, p: Params): (r: seq<real>)
    requires |d| == |x| && |g| == |x|
    ensures |r| == |x|
    ensures p.eps >= 0.0 && InBox(x, p.lower, p.upper) ==>
              WithinEps(r, p.eps) && SumInBox(x, r, p.lower, p.upper)
  {
    seq(|x|, i requires 0 <= i < |x| => StepElement(d[i], g[i], x[i], p))
  }

  /** The projected step on one element with perturbation di, gradient gi
      and pixel xi. */
  function StepElement(di: real, gi: real, xi: real, p: Params): (r: real)
    ensures p.eps >= 0.0 && p.lower <= xi <= p.upper ==>
              Abs(r) <= p.eps && p.lower <= xi + r <= p.upper
  {
    Clamp(Clamp(di + p.alpha * Sign(gi), -p.eps, p.eps), p.lower - xi, p.upper - xi)
  }

  /** The perturbation after n steps from d0. */
  function Iterate(d0: seq<real>, x: seq<real>, net: Network, p: Params, n: nat): (d: seq<real>)
    requires |d0| == |x|
    ensures |d| == |x|
    ensures n >= 1 && p.eps >= 0.0 && InBox(x, p.lower, p.upper) ==>
              WithinEps(d, p.eps) && SumInBox(x, d, p.lower, p.upper)
  {
    if n == 0 then d0
    else
      var d := Iterate(d0, x, net, p, n - 1);
      ProjectStep(d, Gradient(net, d), x, p)
  }

  /** The perturbation restart k ends with. */
  function FinalDelta(x: seq<real>, noise: Draws, k: nat, net: Network, p: Params): (d: seq<real>)
    ensures |d| == |x|
  {
    Iterate(InitialDelta(RestartDraws(noise, k, |x|), x, p.lower, p.upper), x, net, p, p.iters)
  }

  /** `all_loss[0]` at the end of every restart. */
  function FinalLosses(x: seq<real>, noise: Draws, net: Network, p: Params): (ls: seq<real>)
    ensures |ls| == p.restarts
  {
    seq(p.restarts, k requires 0 <= k < p.restarts => net.loss(FinalDelta(x, noise, k, net, p)))
  }

  // ---------------------------------------------------------------------------
  // Choosing the best restart

  /** `max_loss` starts at -100. */
  const InitialMaxLoss: real := -100.0

  /** The running maximum (`max_loss`) and the restart whose delta is kept in
      `max_delta` (None: none was kept, `max_delta` is still all zeros). */
  datatype Best = Best(maxLoss: real, chosen: Option<nat>)

  /** The fold of lines 71-73 over the final losses: restart i replaces
      `max_delta` only if its loss is strictly above the running maximum,
      and the running maximum always becomes the larger of the two. */
  function SelectBest(losses: seq<real>): (b: Best)
    ensures b.chosen.Some? ==> b.chosen.value < |losses|
  {
    if losses == [] then Best(InitialMaxLoss, None)
    else
      var prev := SelectBest(losses[..|losses| - 1]);
      var l := losses[|losses| - 1];
      Best(Max(prev.maxLoss, l), if l > prev.maxLoss then Some(|losses| - 1) else prev.chosen)
  }

  /** What the fold computes: `max_loss` is the maximum of -100 and all the
      losses; a restart is kept exactly when some loss exceeds -100, and the
      kept one is the first that attains the maximum (ties keep the earlier). */
  lemma {:induction false} SelectBestCorrect(losses: seq<real>)
    ensures var b := SelectBest(losses);
      && b.maxLoss >= InitialMaxLoss
      && (forall j :: 0 <= j < |losses| ==> losses[j] <= b.maxLoss)
      && (b.chosen.None? <==> forall j :: 0 <= j < |losses| ==> losses[j] <= InitialMaxLoss)
      && (b.chosen.None? ==> b.maxLoss == InitialMaxLoss)
      && (b.chosen.Some? ==>
            && losses[b.chosen.value] == b.maxLoss
            && forall j :: 0 <= j < b.chosen.value ==> losses[j] < b.maxLoss)
  {
    if losses != [] {
      var n := |losses| - 1;
      var front := losses[..n];
      SelectBestCorrect(front);
      assert forall j :: 0 <= j < n ==> losses[j] == front[j];
    }
  }

  /** The delta kept in `max_delta` after all restarts. */
  function ChosenDelta(x: seq<real>, noise: Draws, net: Network, p: Params): (d: seq<real>)
    ensures |d| == |x|
  {
    KeptDelta(x, noise, net, p, SelectBest(FinalLosses(x, noise, net, p)).chosen)
  }

  /** The delta `max_delta` holds when `chosen` names the restart it was
      taken from. */
  function KeptDelta(x: seq<real>, noise: Draws, net: Network, p: Params, chosen: Option<nat>): (d: seq<real>)
    ensures |d| == |x|
  {
    match chosen
    case None => Zeros(|x|)
    case Some(k) => FinalDelta(x, noise, k, net, p)
  }

  // ---------------------------------------------------------------------------
  // The attack

  /** What `attack_pgd` ends with, in closed form: an unbound variable when
      there are no restarts or no steps, a failed assertion when the last
      restart's delta leaves [-eps, eps], and otherwise whether the model
      predicts the target on `clamp(X + max_delta)`. */
  function AttackOutcome(x: seq<real>, target: int, p: Params, net: Network, noise: Draws): Result<bool, AttackError>
    requires |x| >= 1
  {
    if p.restarts == 0 || p.iters == 0 then Err(UnboundVariable)
    else if !WithinEps(FinalDelta(x, noise, p.restarts - 1, net, p), p.eps) then Err(AssertionFailed)
    else Ok(net.classify(ClampedSum(x, ChosenDelta(x, noise, net, p), p.lower, p.upper)) == target)
  }

  /** The targeted attack on one input, with `noise(k, i)` the uniform
      value drawn for element i in restart k: the restart loop with its inner step loop, the
      running `max_loss`/`max_delta`, the assertion and the final prediction. */
  method AttackPgd(x: seq<real>, target: int, p: Params, net: Network, noise: Draws)
    returns (r: Result<bool, AttackError>)
    requires |x| >= 1
    ensures r == AttackOutcome(x, target, p, net, noise)
  {
    hide Clamp, StepElement, ProjectStep, InitialDelta, ClampedSum;
    ghost var losses := FinalLosses(x, noise, net, p);
    var maxLoss := InitialMaxLoss;
    var maxDelta := Zeros(|x|);
    var delta: Option<seq<real>> := None;
    var allLoss: Option<real> := None;
    var k := 0;
    while k < p.restarts
      invariant 0 <= k <= p.restarts
      invariant k > 0 ==> p.iters >= 1
      invariant allLoss.Some? <==> k > 0
      invariant delta.Some? <==> k > 0
      invariant k > 0 ==> delta.value == FinalDelta(x, noise, k - 1, net, p)
      invariant SelectBest(losses[..k]).chosen.Some? ==> SelectBest(losses[..k]).chosen.value < k
      invariant maxLoss == SelectBest(losses[..k]).maxLoss
      invariant maxDelta == KeptDelta(x, noise, net, p, SelectBest(losses[..k]).chosen)
    {
      var d := InitialDelta(RestartDraws(noise, k, |x|), x, p.lower, p.upper);
      ghost var d0 := d;
      var s := 0;
      while s < p.iters
        invariant 0 <= s <= p.iters
        invariant d == Iterate(d0, x, net, p, s)
        invariant s > 0 ==> allLoss == Some(net.loss(d))
        invariant s == 0 ==> (allLoss.Some? <==> k > 0)
      {
        var g := Gradient(net, d);
        d := ProjectStep(d, g, x, p);
        allLoss := Some(net.loss(d));
        s := s + 1;
      }
      if allLoss.None? {
        return Err(UnboundVariable);
      }
      assert d == FinalDelta(x, noise, k, net, p);
      assert losses[..k + 1][..k] == losses[..k];
      if allLoss.value > maxLoss {
        maxDelta := d;
      }
      maxLoss := Max(maxLoss, allLoss.value);
      delta := Some(d);
      k := k + 1;
    }
    assert losses[..k] == losses;
    if delta.None? {
      return Err(UnboundVariable);
    }
    if !WithinEps(delta.value, p.eps) {
      return Err(AssertionFailed);
    }
    var adversarial := ClampedSum(x, maxDelta, p.lower, p.upper);
    r := Ok(net.classify(adversarial) == target);
  }

  // ---------------------------------------------------------------------------
  // Properties of the restart deltas

  /** After at least one step, the delta of every restart is within eps and
      keeps x + delta in the box: the assertion of line 75 holds. */
  lemma FinalDeltaFeasible(x: seq<real>, noise: Draws, k: nat, net: Network, p: Params)
    requires p.iters >= 1 && p.eps >= 0.0 && InBox(x, p.lower, p.upper)
    ensures WithinEps(FinalDelta(x, noise, k, net, p), p.eps)
    ensures SumInBox(x, FinalDelta(x, noise, k, net, p), p.lower, p.upper)
  {
  }

  /** The kept delta is feasible too, so the final clamp of line 77 changes
      nothing: the attack classifies exactly x + max_delta, a point within
      eps of x and inside the box. */
  lemma ChosenDeltaFeasible(x: seq<real>, noise: Draws, net: Network, p: Params)
    requires p.iters >= 1 && p.eps >= 0.0 && InBox(x, p.lower, p.upper)
    ensures WithinEps(ChosenDelta(x, noise, net, p), p.eps)
    ensures SumInBox(x, ChosenDelta(x, noise, net, p), p.lower, p.upper)
    ensures forall i :: 0 <= i < |x| ==>
              ClampedSum(x, ChosenDelta(x, noise, net, p), p.lower, p.upper)[i] == x[i] + ChosenDelta(x, noise, net, p)[i]
  {
    match SelectBest(FinalLosses(x, noise, net, p)).chosen
    case None =>
    case Some(k) =>
      FinalDeltaFeasible(x, noise, k, net, p);
  }

  /** The start of a restart need not be within eps: with x = 0.5, noise 0.9
      and eps = 0.1 it is 0.5, clamped only by the box. */
  lemma InitialDeltaMayExceedEps()
    ensures InitialDelta([0.9], [0.5], 0.0, 1.0) == [0.5]
    ensures !WithinEps(InitialDelta([0.9], [0.5], 0.0, 1.0), 0.1)
  {
    assert InitialDelta([0.9], [0.5], 0.0, 1.0)[0] == 0.5;
  }

  /** With at least one restart and one step, an image inside the box and
      eps >= 0, the attack returns: neither variable is unbound and the
      assertion of line 75 holds. */
  lemma AttackReturnsInBox(x: seq<real>, target: int, p: Params, net: Network, noise: Draws)
    requires |x| >= 1
    requires p.restarts >= 1 && p.iters >= 1 && p.eps >= 0.0 && InBox(x, p.lower, p.upper)
    ensures AttackOutcome(x, target, p, net, noise).Ok?
  {
    FinalDeltaFeasible(x, noise, p.restarts - 1, net, p);
  }

  /** With eps = 0, at least one restart and one step and an image inside
      the box, the kept delta is zero, so the attack returns the model's
      prediction on x itself. */
  lemma ZeroEpsKeepsPrediction(x: seq<real>, target: int, p: Params, net: Network, noise: Draws)
    requires |x| >= 1
    requires p.restarts >= 1 && p.iters >= 1 && p.eps == 0.0 && InBox(x, p.lower, p.upper)
    ensures AttackOutcome(x, target, p, net, noise) == Ok(net.classify(x) == target)
  {
    AttackReturnsInBox(x, target, p, net, noise);
    ChosenDeltaFeasible(x, noise, net, p);
    var d := ChosenDelta(x, noise, net, p);
    var y := ClampedSum(x, d, p.lower, p.upper);
    forall i | 0 <= i < |x| ensures y[i] == x[i] {
      assert Abs(d[i]) <= 0.0;
    }
    assert y == x;
  }

  /** A reported success is a genuine counterexample: for an image inside the
      box and eps >= 0 there is an input y within eps of x, inside the box,
      that the model classifies as the target. */
  lemma SuccessIsCounterexample(x: seq<real>, target: int, p: Params, net: Network, noise: Draws)
    requires |x| >= 1
    requires p.iters >= 1 && p.eps >= 0.0 && InBox(x, p.lower, p.upper)
    requires AttackOutcome(x, target, p, net, noise) == Ok(true)
    ensures exists y :: |y| == |x| && InBox(y, p.lower, p.upper) && net.classify(y) == target &&
              forall i :: 0 <= i < |x| ==> Abs(y[i] - x[i]) <= p.eps
  {
    var d := ChosenDelta(x, noise, net, p);
    var y := ClampedSum(x, d, p.lower, p.upper);
    ChosenDeltaFeasible(x, noise, net, p);
    assert forall i :: 0 <= i < |x| ==> y[i] - x[i] == d[i];
    assert InBox(y, p.lower, p.upper);
  }
}
