/** The property generator (`create_vnnlib`): for every epsilon it walks the
    test images in the order they are loaded (a seeded shuffle unless
    `--deterministic` is given), skips those the model misclassifies, attacks each
    remaining one towards every other class with PGD, skips those an attack
    breaks, and writes a VNN-LIB property for each image that survives all
    attacks, numbering the files 0, 1, 2, ... until `num_imgs` have been
    written. The model's classifier, the gradient and loss each attack
    follows, and the attack's random draws are oracles; file contents are
    modelled as their lines, the file system as the list of (name, lines)
    pairs written. */
module Filter {
  import opened Text
  import opened Classes
  import opened InputBounds
  import opened Vnnlib
  import opened Pgd

  /** One test image with its label. */
  datatype Sample = Sample(image: Image, trueLabel: int)

  /** The model, as the generator uses it: one classifier (the arg-max of
      `model(normalize(.))` on a flattened input), used both for the clean
      prediction and for the attack's final prediction, and the gradient and
      loss the attack sees on the flattened input x when it aims at target t. */
  datatype Model = Model(
    classify: seq<real> -> int,
    grad: (seq<real>, int) -> ((seq<real>, nat) -> real),
    loss: (seq<real>, int) -> (seq<real> -> real))

  /** The network the attack on x towards t sees: the model's own classifier
      with the gradient and loss of that attack. */
  function AttackNet(m: Model, x: seq<real>, t: int): (net: Network)
    ensures net.classify == m.classify
  {
    Network(m.grad(x, t), m.loss(x, t), m.classify)
  }

  /** One written property file. */
  datatype PropertyFile = PropertyFile(name: string, lines: seq<string>)

  /** What one pass over the images for one epsilon leaves: `acc`, `pgd_acc`,
      `cnt`, and the files written in order. */
  datatype Run = Run(acc: nat, pgdAcc: nat, cnt: nat, files: seq<PropertyFile>)

  /** The fixed inputs of one pass: epsilon, `num_imgs`, the model, the random
      draws `noise(i, t)` of the attack on image i towards target t, and the
      renderings of a float in a bound (`{v}`) and of epsilon in a file name
      (`{eps:.3f}`). */
  datatype Config = Config(
    eps: real,
    numImgs: int,
    model: Model,
    noise: (nat, int) -> Draws,
    fmt: real -> string,
    fmtEps: real -> string)

  /** The number of output classes of CIFAR-10. */
  const OutputClasses: int := 10

  // ---------------------------------------------------------------------------
  // Shapes

  /** The pixels of an image in the order of the attack's `X`: channel, then
      row, then column. */
  function Pixels(img: Image): seq<real> {
    Flatten(seq(|img|, c requires 0 <= c < |img| => Flatten(img[c])))
  }

  lemma PixelsLength(img: Image)
    requires IsShaped(img, 3, 32, 32)
    ensures |Pixels(img)| == 3072
  {
    var channels := seq(|img|, c requires 0 <= c < |img| => Flatten(img[c]));
    forall c | 0 <= c < 3 ensures |channels[c]| == 1024 {
      FlattenLength(img[c], 32);
    }
    FlattenLength(channels, 1024);
  }

  /** CIFAR-10 test images are 3×32×32. */
  predicate CifarShaped(samples: seq<Sample>) {
    forall i :: 0 <= i < |samples| ==> IsShaped(samples[i].image, 3, 32, 32)
  }

  // ---------------------------------------------------------------------------
  // Attacking one image towards every other class

  /** How the loop over targets ends: no attack succeeded, the attack towards
      `target` succeeded, or an attack failed. */
  datatype Verdict = Robust | Broken(target: int) | Crashed(error: AttackError)

  /** The outcome of `attack_pgd` on image i towards target t. */
  function TargetOutcome(x: seq<real>, i: nat, t: int, p: Params, m: Model, noise: (nat, int) -> Draws)
    : Result<bool, AttackError>
    requires |x| >= 1
  {
    AttackOutcome(x, t, p, AttackNet(m, x, t), noise(i, t))
  }

  /** The outcome of the attack towards each target, as the sweep sees it. */
  type Attacks = int -> Result<bool, AttackError>

  /** The attacks on image i: target t gets `TargetOutcome`. */
  function AttacksOn(x: seq<real>, i: nat, p: Params, m: Model, noise: (nat, int) -> Draws): (attack: Attacks)
    requires |x| >= 1
    ensures forall t :: attack(t) == TargetOutcome(x, i, t, p, m, noise)
  {
    t => TargetOutcome(x, i, t, p, m, noise)
  }

  /** The targets are attacked in order until one attack succeeds. */
  function FirstSuccess(targets: seq<int>, attack: Attacks): Verdict {
    if targets == [] then Robust
    else match attack(targets[0])
      case Err(e) => Crashed(e)
      case Ok(success) => if success then Broken(targets[0]) else FirstSuccess(targets[1..], attack)
  }

  /** Attacking a + b: the targets of b are only reached when a is survived. */
  lemma {:induction false} FirstSuccessConcat(a: seq<int>, b: seq<int>, attack: Attacks)
    ensures FirstSuccess(a + b, attack) ==
              if FirstSuccess(a, attack).Robust? then FirstSuccess(b, attack) else FirstSuccess(a, attack)
  {
    if a == [] {
      assert a + b == b;
    } else {
      assert (a + b)[0] == a[0];
      assert (a + b)[1..] == a[1..] + b;
      FirstSuccessConcat(a[1..], b, attack);
    }
  }

  /** The verdict in terms of the individual attacks: robust exactly when
      every attack fails; otherwise the verdict comes from the first target
      whose attack does not return False. */
  lemma {:induction false} FirstSuccessCases(targets: seq<int>, attack: Attacks)
    ensures FirstSuccess(targets, attack).Robust? <==>
              forall j :: 0 <= j < |targets| ==> attack(targets[j]) == Ok(false)
    ensures FirstSuccess(targets, attack).Broken? ==>
              exists j :: 0 <= j < |targets| &&
                targets[j] == FirstSuccess(targets, attack).target &&
                attack(targets[j]) == Ok(true) &&
                forall j' :: 0 <= j' < j ==> attack(targets[j']) == Ok(false)
  {
    if targets != [] {
      var rest := targets[1..];
      FirstSuccessCases(rest, attack);
      assert forall j :: 1 <= j < |targets| ==> targets[j] == rest[j - 1];
      var v := FirstSuccess(targets, attack);
      if v.Broken? && attack(targets[0]) == Ok(false) {
        var j :| 0 <= j < |rest| && rest[j] == v.target && attack(rest[j]) == Ok(true) &&
                 forall j' :: 0 <= j' < j ==> attack(rest[j']) == Ok(false);
        assert targets[j + 1] == v.target;
      }
    }
  }

  /** The verdict on one image against the classes 0..k-1: robust exactly
      when the attack towards every class other than the label returns False. */
  lemma SweepRobust(trueLabel: int, k: int, attack: Attacks)
    ensures FirstSuccess(OtherClasses(trueLabel, k), attack).Robust? <==>
              forall u :: 0 <= u < k && u != trueLabel ==> attack(u) == Ok(false)
  {
    var targets := OtherClasses(trueLabel, k);
    FirstSuccessCases(targets, attack);
    if FirstSuccess(targets, attack).Robust? {
      forall u | 0 <= u < k && u != trueLabel
        ensures attack(u) == Ok(false)
      {
        OtherClassesMembers(trueLabel, k, u);
        var j :| 0 <= j < |targets| && targets[j] == u;
      }
    } else {
      var j :| 0 <= j < |targets| && attack(targets[j]) != Ok(false);
      OtherClassesMembers(trueLabel, k, targets[j]);
    }
  }

  /** Broken towards t only for a class t other than the label whose attack
      succeeded after every lower class other than the label was tried in
      vain: the label itself is never a target. */
  lemma SweepBroken(trueLabel: int, k: int, attack: Attacks)
    requires FirstSuccess(OtherClasses(trueLabel, k), attack).Broken?
    ensures var t := FirstSuccess(OtherClasses(trueLabel, k), attack).target;
              && 0 <= t < k && t != trueLabel
              && attack(t) == Ok(true)
              && forall u :: 0 <= u < t && u != trueLabel ==> attack(u) == Ok(false)
  {
    var targets := OtherClasses(trueLabel, k);
    var v := FirstSuccess(targets, attack);
    FirstSuccessCases(targets, attack);
    var j :| 0 <= j < |targets| && targets[j] == v.target && attack(targets[j]) == Ok(true) &&
             forall j' :: 0 <= j' < j ==> attack(targets[j']) == Ok(false);
    OtherClassesMembers(trueLabel, k, v.target);
    OtherClassesAscending(trueLabel, k);
    forall u | 0 <= u < v.target && u != trueLabel
      ensures attack(u) == Ok(false)
    {
      OtherClassesMembers(trueLabel, k, u);
      var j' :| 0 <= j' < |targets| && targets[j'] == u;
      assert j' < j;
    }
  }

  /** The class t is skipped when it is the label, and otherwise decides the
      verdict unless its attack returns False. */
  lemma SweepStep(trueLabel: int, k: int, t: nat, attack: Attacks)
    requires t < k
    requires FirstSuccess(OtherClasses(trueLabel, t), attack) == Robust
    ensures t == trueLabel || attack(t) == Ok(false) ==>
              FirstSuccess(OtherClasses(trueLabel, t + 1), attack) == Robust
    ensures t != trueLabel && attack(t) != Ok(false) ==>
              FirstSuccess(OtherClasses(trueLabel, k), attack) ==
                match attack(t)
                case Err(e) => Crashed(e)
                case Ok(_) => Broken(t)
  {
    var front := OtherClasses(trueLabel, t);
    if t == trueLabel {
      assert OtherClasses(trueLabel, t + 1) == front;
    } else {
      assert OtherClasses(trueLabel, t + 1) == front + [t];
      FirstSuccessConcat(front, [t], attack);
      assert [t][1..] == [];
      if attack(t) != Ok(false) {
        OtherClassesPrefix(trueLabel, t + 1, k);
        var head := OtherClasses(trueLabel, t + 1);
        var all := OtherClasses(trueLabel, k);
        assert all == head + all[|head|..];
        FirstSuccessConcat(head, all[|head|..], attack);
      }
    }
  }

  /** The sweep over the targets 0..9, skipping the label and stopping at the
      first successful attack; an attack that fails makes the sweep fail. `runnerup` is left
      at the successful target, or at 9 when the loop runs to its end. */
  method SweepTargets(x: seq<real>, i: nat, trueLabel: int, p: Params, m: Model, noise: (nat, int) -> Draws)
    returns (v: Verdict, runnerup: int)
    requires |x| >= 1
    ensures v == FirstSuccess(OtherClasses(trueLabel, OutputClasses), AttacksOn(x, i, p, m, noise))
    ensures v.Robust? ==> runnerup == OutputClasses - 1
    ensures v.Broken? ==> runnerup == v.target
  {
    hide AttackOutcome;
    ghost var attack := AttacksOn(x, i, p, m, noise);
    var k := OutputClasses;
    v := Robust;
    runnerup := 0;
    var t := 0;
    while t < k
      invariant 0 <= t <= k == OutputClasses
      invariant FirstSuccess(OtherClasses(trueLabel, t), attack) == Robust
      invariant t > 0 ==> runnerup == t - 1
    {
      runnerup := t;
      SweepStep(trueLabel, k, t, attack);
      if t != trueLabel {
        var r := AttackPgd(x, t, p, AttackNet(m, x, t), noise(i, t));
        if r.Err? {
          v := Crashed(r.error);
          return;
        }
        if r.value {
          v := Broken(t);
          return;
        }
      }
      t := t + 1;
    }
  }

  // ---------------------------------------------------------------------------
  // One pass over the images for one epsilon

  /** The file name: "prop_", the property number, "_eps_", the rendered
      epsilon and ".vnnlib". */
  function FileName(cnt: nat, epsText: string): string {
    "prop_" + (NatStr(cnt) + ("_eps_" + (epsText + ".vnnlib")))
  }

  lemma CancelLeft(p: string, u: string, v: string)
    requires p + u == p + v
    ensures u == v
  {
    assert u == (p + u)[|p|..];
    assert v == (p + v)[|p|..];
  }

  lemma CancelRight(u: string, v: string, s: string)
    requires u + s == v + s
    ensures u == v
  {
    assert u == (u + s)[..|u|];
    assert v == (v + s)[..|v|];
  }

  /** The text after the number starts with '_', which is not a digit. */
  lemma EpsSuffixStart(e: string)
    ensures |"_eps_" + (e + ".vnnlib")| >= 1 && !IsDigit(("_eps_" + (e + ".vnnlib"))[0])
  {
  }

  /** Two file names agree only for the same number and the same epsilon text. */
  lemma FileNameInjective(a: nat, b: nat, e1: string, e2: string)
    requires FileName(a, e1) == FileName(b, e2)
    ensures a == b && e1 == e2
  {
    var s1 := "_eps_" + (e1 + ".vnnlib");
    var s2 := "_eps_" + (e2 + ".vnnlib");
    CancelLeft("prop_", NatStr(a) + s1, NatStr(b) + s2);
    EpsSuffixStart(e1);
    EpsSuffixStart(e2);
    DigitsPrefixUnique(NatStr(a), s1, NatStr(b), s2);
    NatStrInjective(a, b);
    CancelLeft("_eps_", e1 + ".vnnlib", e2 + ".vnnlib");
    CancelRight(e1, e2, ".vnnlib");
  }

  /** How the attacks on image i end. */
  function ImageVerdict(samples: seq<Sample>, i: nat, c: Config): Verdict
    requires i < |samples| && CifarShaped(samples)
  {
    PixelsLength(samples[i].image);
    FirstSuccess(OtherClasses(samples[i].trueLabel, OutputClasses),
                 AttacksOn(Pixels(samples[i].image), i, ScriptParams(c.eps), c.model, c.noise))
  }

  /** The image with this sample's label is classified correctly and
      survives the attacks towards all nine other classes. */
  ghost predicate Accepted(samples: seq<Sample>, i: nat, c: Config)
    requires i < |samples| && CifarShaped(samples)
  {
    c.model.classify(Pixels(samples[i].image)) == samples[i].trueLabel && ImageVerdict(samples, i, c).Robust?
  }

  /** The file written for an accepted image as property number `cnt`. */
  function PropertyOf(s: Sample, cnt: nat, c: Config): (f: PropertyFile)
    requires IsShaped(s.image, 3, 32, 32)
    ensures f.name == FileName(cnt, c.fmtEps(c.eps))
  {
    CifarStdPositive();
    PropertyFile(FileName(cnt, c.fmtEps(c.eps)),
                 PropertyLines(CreateInputBounds(s.image, c.eps, CifarMean, CifarStd), s.trueLabel, OutputClasses, c.fmt))
  }

  /** What the loop learns about one image: the model misclassifies it, or
      the image is attacked and the sweep over the targets ends with
      `verdict`. */
  datatype Look = Misclassified | Attacked(verdict: Verdict)

  /** The look at image i. */
  function LookAt(samples: seq<Sample>, i: nat, c: Config): Look
    requires i < |samples| && CifarShaped(samples)
  {
    if c.model.classify(Pixels(samples[i].image)) != samples[i].trueLabel then Misclassified
    else Attacked(ImageVerdict(samples, i, c))
  }

  /** A look says "accepted" exactly for an accepted image. */
  lemma LookAccepted(samples: seq<Sample>, i: nat, c: Config)
    requires i < |samples| && CifarShaped(samples)
    ensures LookAt(samples, i, c) == Attacked(Robust) <==> Accepted(samples, i, c)
    ensures LookAt(samples, i, c).Attacked? <==> c.model.classify(Pixels(samples[i].image)) == samples[i].trueLabel
  {
  }

  /** The looks at images 0..n-1. */
  function Looks(samples: seq<Sample>, n: nat, c: Config): (ls: seq<Look>)
    requires n <= |samples| && CifarShaped(samples)
    ensures |ls| == n
  {
    seq(n, i requires 0 <= i < n => LookAt(samples, i, c))
  }

  lemma LooksPrefix(samples: seq<Sample>, n: nat, n': nat, c: Config)
    requires n <= n' <= |samples| && CifarShaped(samples)
    ensures Looks(samples, n', c)[..n] == Looks(samples, n, c)
  {
  }

  lemma LooksNext(samples: seq<Sample>, n: nat, c: Config)
    requires n < |samples| && CifarShaped(samples)
    ensures Looks(samples, n + 1, c) == Looks(samples, n, c) + [LookAt(samples, n, c)]
  {
    hide LookAt;
    LooksPrefix(samples, n, n + 1, c);
    assert Looks(samples, n + 1, c) == Looks(samples, n + 1, c)[..n] + [Looks(samples, n + 1, c)[n]];
  }

  /** The counters `acc`, `pgd_acc` and `cnt`, and the images whose
      properties were written, in the order they were written. */
  datatype Tally = Tally(acc: nat, pgdAcc: nat, cnt: nat, accepted: seq<nat>)

  /** The body of the image loop for image i, once the `cnt >= num_imgs`
      test has let it through. */
  function Examine(t: Tally, i: nat, look: Look): Result<Tally, AttackError> {
    match look
    case Misclassified => Ok(t)
    case Attacked(Crashed(e)) => Err(e)
    case Attacked(Broken(_)) => Ok(t.(acc := t.acc + 1))
    case Attacked(Robust) => Ok(Tally(t.acc + 1, t.pgdAcc + 1, t.cnt + 1, t.accepted + [i]))
  }

  /** The image loop over the looks at images 0..|looks|-1; once `cnt`
      reaches `num_imgs` the remaining images are not looked at. */
  function Pass(looks: seq<Look>, numImgs: int): Result<Tally, AttackError> {
    if looks == [] then Ok(Tally(0, 0, 0, []))
    else
      var n := |looks| - 1;
      match Pass(looks[..n], numImgs)
      case Err(e) => Err(e)
      case Ok(t) => if t.cnt >= numImgs then Ok(t) else Examine(t, n, looks[n])
  }

  /** The next image is examined exactly when the quota is not reached. */
  lemma PassNext(looks: seq<Look>, l: Look, numImgs: int)
    ensures Pass(looks + [l], numImgs) ==
              match Pass(looks, numImgs)
              case Err(e) => Err(e)
              case Ok(t) => if t.cnt >= numImgs then Ok(t) else Examine(t, |looks|, l)
  {
    assert (looks + [l])[..|looks|] == looks;
  }

  /** Once the quota is reached, the remaining images change nothing. */
  lemma {:induction false} PassStops(looks: seq<Look>, numImgs: int, m: nat)
    requires m <= |looks|
    requires Pass(looks[..m], numImgs).Ok? && Pass(looks[..m], numImgs).value.cnt >= numImgs
    ensures Pass(looks, numImgs) == Pass(looks[..m], numImgs)
    decreases |looks|
  {
    if m < |looks| {
      var n := |looks| - 1;
      assert looks[..n][..m] == looks[..m];
      PassStops(looks[..n], numImgs, m);
    } else {
      assert looks[..m] == looks;
    }
  }

  /** A failed attack ends the whole pass. */
  lemma {:induction false} PassCrashStays(looks: seq<Look>, numImgs: int, m: nat)
    requires m <= |looks|
    requires Pass(looks[..m], numImgs).Err?
    ensures Pass(looks, numImgs) == Pass(looks[..m], numImgs)
    decreases |looks|
  {
    if m < |looks| {
      var n := |looks| - 1;
      assert looks[..n][..m] == looks[..m];
      PassCrashStays(looks[..n], numImgs, m);
    } else {
      assert looks[..m] == looks;
    }
  }

  /** `pgd_acc` and `cnt` both count the accepted images, no more than `acc`
      images were attacked and no more than the images seen, and `cnt`
      never exceeds `num_imgs` (nothing is accepted when `num_imgs` <= 0). */
  lemma {:induction false} PassCounters(looks: seq<Look>, numImgs: int)
    requires Pass(looks, numImgs).Ok?
    ensures var t := Pass(looks, numImgs).value;
      && t.pgdAcc == t.cnt == |t.accepted|
      && t.cnt <= t.acc <= |looks|
      && (numImgs <= 0 ==> t.cnt == 0)
      && (numImgs > 0 ==> t.cnt <= numImgs)
  {
    if looks != [] {
      PassCounters(looks[..|looks| - 1], numImgs);
    }
  }

  /** The accepted images are, in ascending order, images the pass looked at
      whose sweep was robust. */
  lemma {:induction false} PassAccepted(looks: seq<Look>, numImgs: int)
    requires Pass(looks, numImgs).Ok?
    ensures var a := Pass(looks, numImgs).value.accepted;
      && (forall j :: 0 <= j < |a| ==> a[j] < |looks| && looks[a[j]] == Attacked(Robust))
      && (forall j1, j2 :: 0 <= j1 < j2 < |a| ==> a[j1] < a[j2])
  {
    if looks != [] {
      var n := |looks| - 1;
      PassAccepted(looks[..n], numImgs);
      var a := Pass(looks, numImgs).value.accepted;
      var prev := Pass(looks[..n], numImgs).value.accepted;
      assert a == prev || a == prev + [n];
      forall j | 0 <= j < |prev| ensures prev[j] < n && looks[prev[j]] == Attacked(Robust) {
        assert looks[..n][prev[j]] == looks[prev[j]];
      }
    }
  }

  /** The number of attacked images among the looks. */
  function CountAttacked(looks: seq<Look>): nat {
    if looks == [] then 0
    else CountAttacked(looks[..|looks| - 1]) + if looks[|looks| - 1].Attacked? then 1 else 0
  }

  /** The number of images among the looks whose sweep was robust. */
  function CountRobust(looks: seq<Look>): nat {
    if looks == [] then 0
    else CountRobust(looks[..|looks| - 1]) + if looks[|looks| - 1] == Attacked(Robust) then 1 else 0
  }

  /** When the quota is not reached, every image was examined: `acc` counts
      all attacked images and `cnt` all robust ones. */
  lemma {:induction false} PassComplete(looks: seq<Look>, numImgs: int)
    requires Pass(looks, numImgs).Ok? && Pass(looks, numImgs).value.cnt < numImgs
    ensures Pass(looks, numImgs).value.acc == CountAttacked(looks)
    ensures Pass(looks, numImgs).value.cnt == CountRobust(looks)
  {
    if looks != [] {
      PassComplete(looks[..|looks| - 1], numImgs);
    }
  }

  /** Without a failed sweep among the looks the pass runs to its end. */
  lemma {:induction false} PassNoCrash(looks: seq<Look>, numImgs: int)
    requires forall i :: 0 <= i < |looks| ==> looks[i] == Misclassified || !looks[i].verdict.Crashed?
    ensures Pass(looks, numImgs).Ok?
  {
    if looks != [] {
      var n := |looks| - 1;
      assert forall i :: 0 <= i < n ==> looks[..n][i] == looks[i];
      PassNoCrash(looks[..n], numImgs);
    }
  }

  /** The files written for the accepted images, numbered in the order they
      are written. */
  function Files(samples: seq<Sample>, accepted: seq<nat>, c: Config): (fs: seq<PropertyFile>)
    requires CifarShaped(samples)
    requires forall j :: 0 <= j < |accepted| ==> accepted[j] < |samples|
    ensures |fs| == |accepted|
  {
    seq(|accepted|, j requires 0 <= j < |accepted| => PropertyOf(samples[accepted[j]], j, c))
  }

  lemma FilesNext(samples: seq<Sample>, accepted: seq<nat>, i: nat, c: Config)
    requires i < |samples| && CifarShaped(samples)
    requires forall j :: 0 <= j < |accepted| ==> accepted[j] < |samples|
    ensures Files(samples, accepted + [i], c) == Files(samples, accepted, c) + [PropertyOf(samples[i], |accepted|, c)]
  {
    hide PropertyOf; // only the positions matter, not the file contents
  }

  /** The state after the loop has dealt with images 0..n-1. */
  function FilterUpTo(samples: seq<Sample>, n: nat, c: Config): Result<Run, AttackError>
    requires n <= |samples| && CifarShaped(samples)
  {
    match Pass(Looks(samples, n, c), c.numImgs)
    case Err(e) => Err(e)
    case Ok(t) =>
      PassAccepted(Looks(samples, n, c), c.numImgs);
      Ok(Run(t.acc, t.pgdAcc, t.cnt, Files(samples, t.accepted, c)))
  }

  /** Once the quota is reached, the state no longer changes. */
  lemma FilterStops(samples: seq<Sample>, n: nat, n': nat, c: Config)
    requires n <= n' <= |samples| && CifarShaped(samples)
    requires FilterUpTo(samples, n, c).Ok? && FilterUpTo(samples, n, c).value.cnt >= c.numImgs
    ensures FilterUpTo(samples, n', c) == FilterUpTo(samples, n, c)
  {
    LooksPrefix(samples, n, n', c);
    PassStops(Looks(samples, n', c), c.numImgs, n);
  }

  /** A failed attack ends the whole run. */
  lemma FilterCrashStays(samples: seq<Sample>, n: nat, n': nat, c: Config)
    requires n <= n' <= |samples| && CifarShaped(samples)
    requires FilterUpTo(samples, n, c).Err?
    ensures FilterUpTo(samples, n', c) == FilterUpTo(samples, n, c)
  {
    LooksPrefix(samples, n, n', c);
    PassCrashStays(Looks(samples, n', c), c.numImgs, n);
  }

  /** One turn of the image loop while the quota is not reached. */
  lemma FilterTurn(samples: seq<Sample>, i: nat, c: Config, t: Tally, look: Look)
    requires i < |samples| && CifarShaped(samples)
    requires Pass(Looks(samples, i, c), c.numImgs) == Ok(t) && t.cnt < c.numImgs
    requires look == LookAt(samples, i, c)
    ensures Pass(Looks(samples, i + 1, c), c.numImgs) == Examine(t, i, look)
  {
    LooksNext(samples, i, c);
    PassNext(Looks(samples, i, c), LookAt(samples, i, c), c.numImgs);
  }

  /** The loop ends after image n - 1 when the quota is reached or every
      image was looked at; the files are then those of the accepted images. */
  lemma FilterEnd(samples: seq<Sample>, n: nat, c: Config, t: Tally)
    requires n <= |samples| && CifarShaped(samples)
    requires Pass(Looks(samples, n, c), c.numImgs) == Ok(t) && (n == |samples| || t.cnt >= c.numImgs)
    ensures forall j :: 0 <= j < |t.accepted| ==> t.accepted[j] < |samples|
    ensures FilterUpTo(samples, |samples|, c) == Ok(Run(t.acc, t.pgdAcc, t.cnt, Files(samples, t.accepted, c)))
  {
    LooksPrefix(samples, n, |samples|, c);
    if n < |samples| {
      PassStops(Looks(samples, |samples|, c), c.numImgs, n);
    }
    PassAccepted(Looks(samples, |samples|, c), c.numImgs);
  }

  /** A failed attack on image n - 1 ends the loop with that failure. */
  lemma FilterFails(samples: seq<Sample>, n: nat, c: Config)
    requires n <= |samples| && CifarShaped(samples)
    requires Pass(Looks(samples, n, c), c.numImgs).Err?
    ensures FilterUpTo(samples, |samples|, c) == Err(Pass(Looks(samples, n, c), c.numImgs).error)
  {
    LooksPrefix(samples, n, |samples|, c);
    PassCrashStays(Looks(samples, |samples|, c), c.numImgs, n);
  }

  /** The attacks on image i (lines 295-306). */
  method AttackImage(samples: seq<Sample>, i: nat, c: Config) returns (v: Verdict, runnerup: int)
    requires i < |samples| && CifarShaped(samples)
    ensures v == ImageVerdict(samples, i, c)
    ensures v.Robust? ==> runnerup == OutputClasses - 1
  {
    PixelsLength(samples[i].image);
    v, runnerup := SweepTargets(Pixels(samples[i].image), i, samples[i].trueLabel, ScriptParams(c.eps), c.model, c.noise);
  }

  /** The clean prediction for image i and, when it is correct, the attacks
      on it (lines 269-306). */
  method LookAtImage(samples: seq<Sample>, i: nat, c: Config) returns (l: Look, runnerup: int)
    requires i < |samples| && CifarShaped(samples)
    ensures l == LookAt(samples, i, c)
    ensures l == Attacked(Robust) ==> runnerup == OutputClasses - 1
  {
    var s := samples[i];
    if c.model.classify(Pixels(s.image)) != s.trueLabel {
      return Misclassified, 0;
    }
    var v;
    v, runnerup := AttackImage(samples, i, c);
    l := Attacked(v);
  }

  /** One turn of the image loop once the quota test has let image i through:
      the pass over images 0..i-1 ended in `t`, and this look extends it. */
  method ExamineImage(samples: seq<Sample>, i: nat, c: Config, ghost t: Tally) returns (l: Look, runnerup: int)
    requires i < |samples| && CifarShaped(samples)
    requires Pass(Looks(samples, i, c), c.numImgs) == Ok(t) && t.cnt < c.numImgs
    ensures Pass(Looks(samples, i + 1, c), c.numImgs) == Examine(t, i, l)
    ensures l == Attacked(Robust) ==> runnerup == OutputClasses - 1
  {
    l, runnerup := LookAtImage(samples, i, c);
    FilterTurn(samples, i, c, t, l);
  }

  /** The property of an accepted image (lines 315-319): its input box and
      the file `save_vnnlib` writes for it. */
  method WriteProperty(s: Sample, cnt: nat, runnerup: int, c: Config) returns (f: PropertyFile)
    requires IsShaped(s.image, 3, 32, 32)
    ensures f == PropertyOf(s, cnt, c)
  {
    CifarStdPositive();
    var bounds := CreateInputBounds(s.image, c.eps, CifarMean, CifarStd);
    var lines := SaveVnnlib(bounds, s.trueLabel, runnerup, OutputClasses, c.fmt);
    f := PropertyFile(FileName(cnt, c.fmtEps(c.eps)), lines);
  }

  /** The image loop of `create_vnnlib` for one epsilon. */
  method FilterImages(samples: seq<Sample>, c: Config) returns (r: Result<Run, AttackError>)
    requires CifarShaped(samples)
    ensures r == FilterUpTo(samples, |samples|, c)
  {
    // The loop relies on its helpers' contracts alone: neither what a file
    // contains nor how an attack ends is needed here.
    hide PropertyOf, ImageVerdict;
    var acc, pgdAcc, cnt := 0, 0, 0;
    var files: seq<PropertyFile> := [];
    ghost var t := Tally(0, 0, 0, []);
    var i := 0;
    while i < |samples|
      invariant 0 <= i <= |samples|
      invariant Pass(Looks(samples, i, c), c.numImgs) == Ok(t)
      invariant acc == t.acc && pgdAcc == t.pgdAcc && cnt == t.cnt == |t.accepted|
      invariant forall j :: 0 <= j < |t.accepted| ==> t.accepted[j] < i
      invariant files == Files(samples, t.accepted, c)
    {
      if cnt >= c.numImgs {
        FilterEnd(samples, i, c, t);
        return Ok(Run(acc, pgdAcc, cnt, files));
      }
      var look, runnerup := ExamineImage(samples, i, c, t);
      match look {
        case Misclassified =>
        case Attacked(Crashed(e)) =>
          FilterFails(samples, i + 1, c);
          return Err(e);
        case Attacked(Broken(_)) =>
          acc := acc + 1;
        case Attacked(Robust) =>
          acc, pgdAcc := acc + 1, pgdAcc + 1;
          var file := WriteProperty(samples[i], cnt, runnerup, c);
          FilesNext(samples, t.accepted, i, c);
          files := files + [file];
          cnt := cnt + 1;
      }
      t := Examine(t, i, look).value;
      i := i + 1;
    }
    FilterEnd(samples, i, c, t);
    r := Ok(Run(acc, pgdAcc, cnt, files));
  }

  // ---------------------------------------------------------------------------
  // What one pass produces

  /** The counters agree with the files: `pgd_acc` and `cnt` both count the
      files written, no more than `acc` images were correctly classified,
      `cnt` never exceeds `num_imgs` (nothing is written when `num_imgs` <= 0),
      and the files are numbered 0, 1, 2, ... in the order they are written. */
  lemma FilterCounters(samples: seq<Sample>, n: nat, c: Config)
    requires n <= |samples| && CifarShaped(samples)
    requires FilterUpTo(samples, n, c).Ok?
    ensures var r := FilterUpTo(samples, n, c).value;
      && r.pgdAcc == r.cnt == |r.files|
      && r.cnt <= r.acc <= n
      && (c.numImgs <= 0 ==> r.cnt == 0)
      && (c.numImgs > 0 ==> r.cnt <= c.numImgs)
      && forall j :: 0 <= j < |r.files| ==> r.files[j].name == FileName(j, c.fmtEps(c.eps))
  {
    PassCounters(Looks(samples, n, c), c.numImgs);
  }

  /** Within one pass no two files share a name, so none overwrites another. */
  lemma FileNamesDistinct(samples: seq<Sample>, n: nat, c: Config)
    requires n <= |samples| && CifarShaped(samples)
    requires FilterUpTo(samples, n, c).Ok?
    ensures var fs := FilterUpTo(samples, n, c).value.files;
      forall j1, j2 :: 0 <= j1 < j2 < |fs| ==> fs[j1].name != fs[j2].name
  {
    FilterCounters(samples, n, c);
    var fs := FilterUpTo(samples, n, c).value.files;
    forall j1, j2 | 0 <= j1 < j2 < |fs| ensures fs[j1].name != fs[j2].name {
      if fs[j1].name == fs[j2].name {
        FileNameInjective(j1, j2, c.fmtEps(c.eps), c.fmtEps(c.eps));
      }
    }
  }

  /** Every file is the property of an accepted image (one the model
      classifies correctly and that survives every attack), written with that
      image's input box and label and numbered by its position; the images
      come in the order the loop meets them. */
  lemma FilterProvenance(samples: seq<Sample>, n: nat, c: Config)
    requires n <= |samples| && CifarShaped(samples)
    requires FilterUpTo(samples, n, c).Ok?
    ensures var fs := FilterUpTo(samples, n, c).value.files;
      exists idx: seq<nat> ::
        && |idx| == |fs|
        && (forall j :: 0 <= j < |idx| ==>
              idx[j] < n && Accepted(samples, idx[j], c) && fs[j] == PropertyOf(samples[idx[j]], j, c))
        && (forall j1, j2 :: 0 <= j1 < j2 < |idx| ==> idx[j1] < idx[j2])
  {
    var looks := Looks(samples, n, c);
    PassAccepted(looks, c.numImgs);
    var idx := Pass(looks, c.numImgs).value.accepted;
    forall j | 0 <= j < |idx| ensures Accepted(samples, idx[j], c) {
      LookAccepted(samples, idx[j], c);
    }
  }

  /** The number of images among 0..n-1 the model classifies correctly. */
  function CorrectCount(samples: seq<Sample>, n: nat, c: Config): nat
    requires n <= |samples|
  {
    if n == 0 then 0
    else CorrectCount(samples, n - 1, c) + if c.model.classify(Pixels(samples[n - 1].image)) == samples[n - 1].trueLabel then 1 else 0
  }

  /** The number of accepted images among 0..n-1. */
  ghost function AcceptedCount(samples: seq<Sample>, n: nat, c: Config): nat
    requires n <= |samples| && CifarShaped(samples)
  {
    if n == 0 then 0
    else AcceptedCount(samples, n - 1, c) + if Accepted(samples, n - 1, c) then 1 else 0
  }

  /** Counting looks counts images. */
  lemma {:induction false} LooksCount(samples: seq<Sample>, n: nat, c: Config)
    requires n <= |samples| && CifarShaped(samples)
    ensures CountAttacked(Looks(samples, n, c)) == CorrectCount(samples, n, c)
    ensures CountRobust(Looks(samples, n, c)) == AcceptedCount(samples, n, c)
  {
    if n > 0 {
      LooksCount(samples, n - 1, c);
      LooksPrefix(samples, n - 1, n, c);
      LookAccepted(samples, n - 1, c);
    }
  }

  /** When the quota is not reached, every image was examined: `acc` counts
      all correctly classified images and `cnt` all accepted ones. */
  lemma FilterComplete(samples: seq<Sample>, n: nat, c: Config)
    requires n <= |samples| && CifarShaped(samples)
    requires FilterUpTo(samples, n, c).Ok? && FilterUpTo(samples, n, c).value.cnt < c.numImgs
    ensures FilterUpTo(samples, n, c).value.acc == CorrectCount(samples, n, c)
    ensures FilterUpTo(samples, n, c).value.cnt == AcceptedCount(samples, n, c)
  {
    PassComplete(Looks(samples, n, c), c.numImgs);
    LooksCount(samples, n, c);
  }

  // ---------------------------------------------------------------------------
  // Attacks on images inside the pixel box

  /** Every pixel lies in [0, 1], as `ToTensor` delivers them. */
  predicate PixelsInUnit(samples: seq<Sample>) {
    forall i :: 0 <= i < |samples| ==> InBox(Pixels(samples[i].image), 0.0, 1.0)
  }

  /** Attacks that all return give a verdict that is not a failure. */
  lemma {:induction false} SweepNoCrash(targets: seq<int>, attack: Attacks)
    requires forall t :: attack(t).Ok?
    ensures !FirstSuccess(targets, attack).Crashed?
  {
    if targets != [] {
      SweepNoCrash(targets[1..], attack);
    }
  }

  /** For eps >= 0 and pixels in [0, 1] no attack fails. */
  lemma VerdictNoCrash(samples: seq<Sample>, i: nat, c: Config)
    requires i < |samples| && CifarShaped(samples)
    requires c.eps >= 0.0 && PixelsInUnit(samples)
    ensures !ImageVerdict(samples, i, c).Crashed?
  {
    PixelsLength(samples[i].image);
    var x := Pixels(samples[i].image);
    var p := ScriptParams(c.eps);
    forall t ensures TargetOutcome(x, i, t, p, c.model, c.noise).Ok? {
      AttackReturnsInBox(x, t, p, AttackNet(c.model, x, t), c.noise(i, t));
    }
    SweepNoCrash(OtherClasses(samples[i].trueLabel, OutputClasses), AttacksOn(x, i, p, c.model, c.noise));
  }

  /** For eps >= 0 and pixels in [0, 1] the pass runs to its end. */
  lemma FilterNoCrash(samples: seq<Sample>, n: nat, c: Config)
    requires n <= |samples| && CifarShaped(samples)
    requires c.eps >= 0.0 && PixelsInUnit(samples)
    ensures FilterUpTo(samples, n, c).Ok?
  {
    var looks := Looks(samples, n, c);
    forall i | 0 <= i < n ensures looks[i] == Misclassified || !looks[i].verdict.Crashed? {
      VerdictNoCrash(samples, i, c);
    }
    PassNoCrash(looks, c.numImgs);
  }

  /** With eps = 0 the attacks cannot move the image, so each one just asks
      whether the clean prediction is its target: a correctly classified
      image survives (and is accepted), and a misclassified one would be
      broken towards the class it is taken for, when that is one of the ten. */
  lemma ZeroEpsVerdict(samples: seq<Sample>, i: nat, c: Config)
    requires i < |samples| && CifarShaped(samples)
    requires c.eps == 0.0 && PixelsInUnit(samples)
    ensures var u := c.model.classify(Pixels(samples[i].image));
      ImageVerdict(samples, i, c) ==
        if 0 <= u < OutputClasses && u != samples[i].trueLabel then Broken(u) else Robust
    ensures Accepted(samples, i, c) <==> c.model.classify(Pixels(samples[i].image)) == samples[i].trueLabel
  {
    PixelsLength(samples[i].image);
    var x := Pixels(samples[i].image);
    var u := c.model.classify(x);
    var lab := samples[i].trueLabel;
    var p := ScriptParams(c.eps);
    var attack := AttacksOn(x, i, p, c.model, c.noise);
    forall t ensures attack(t) == Ok(u == t) {
      ZeroEpsKeepsPrediction(x, t, p, AttackNet(c.model, x, t), c.noise(i, t));
    }
    var v := FirstSuccess(OtherClasses(lab, OutputClasses), attack);
    SweepRobust(lab, OutputClasses, attack);
    if 0 <= u < OutputClasses && u != lab {
      assert attack(u) != Ok(false);
      SweepNoCrash(OtherClasses(lab, OutputClasses), attack);
      SweepBroken(lab, OutputClasses, attack);
      assert attack(v.target) == Ok(true);
    }
  }

  /** An image the filter drops after a successful attack is genuinely not
      robust: the target is another class, and there is an input within eps
      of the image, inside [0, 1], that the network classifies as the target. */
  lemma BrokenHasCounterexample(samples: seq<Sample>, i: nat, c: Config)
    requires i < |samples| && CifarShaped(samples)
    requires c.eps >= 0.0 && PixelsInUnit(samples)
    requires ImageVerdict(samples, i, c).Broken?
    ensures var t := ImageVerdict(samples, i, c).target;
      var x := Pixels(samples[i].image);
      && 0 <= t < OutputClasses && t != samples[i].trueLabel
      && exists y :: |y| == |x| && InBox(y, 0.0, 1.0) && c.model.classify(y) == t &&
           forall k :: 0 <= k < |x| ==> Abs(y[k] - x[k]) <= c.eps
  {
    PixelsLength(samples[i].image);
    var x := Pixels(samples[i].image);
    var p := ScriptParams(c.eps);
    var t := ImageVerdict(samples, i, c).target;
    SweepBroken(samples[i].trueLabel, OutputClasses, AttacksOn(x, i, p, c.model, c.noise));
    SuccessIsCounterexample(x, t, p, AttackNet(c.model, x, t), c.noise(i, t));
  }

  /** The position of pixel (ch, r, col) of a 3×32×32 image in the flattened
      order shared by the attack's input and the table of input bounds. */
  function PixelIndex(ch: nat, r: nat, col: nat): nat {
    ch * 1024 + r * 32 + col
  }

  /** Pixel (ch, r, col) is element ch·1024 + r·32 + col of the attack's input,
      and that element's row in the table of input bounds is the pixel's row:
      variable X_j of a property file is pixel j of the attacked tensor. */
  lemma PixelsLayout(img: Image, eps: real, ch: nat, r: nat, col: nat)
    requires IsShaped(img, 3, 32, 32) && ch < 3 && r < 32 && col < 32
    ensures PixelIndex(ch, r, col) < |Pixels(img)| == 3072
    ensures Pixels(img)[PixelIndex(ch, r, col)] == img[ch][r][col]
    ensures |CreateInputBounds(img, eps, CifarMean, CifarStd)| == 3072
    ensures CreateInputBounds(img, eps, CifarMean, CifarStd)[PixelIndex(ch, r, col)] ==
              PixelBound(img[ch][r][col], eps, CifarMean[ch], CifarStd[ch])
  {
    PixelsLength(img);
    var channels := seq(|img|, c requires 0 <= c < |img| => Flatten(img[c]));
    forall c | 0 <= c < 3 ensures |channels[c]| == 1024 {
      FlattenLength(img[c], 32);
    }
    FlattenAt(channels, 1024, ch, r * 32 + col);
    FlattenAt(img[ch], 32, r, col);
    CifarStdPositive();
    InputBoundsLayout(img, eps, CifarMean, CifarStd, 3, 32, 32, ch, r, col, PixelIndex(ch, r, col));
  }

  /** Flat position j of the table holds the row of element j of the
      attack's input, normalised with the constants of channel j / 1024. */
  lemma FlatLayout(img: Image, eps: real, j: nat)
    requires IsShaped(img, 3, 32, 32) && j < 3072
    ensures |Pixels(img)| == 3072 && |CreateInputBounds(img, eps, CifarMean, CifarStd)| == 3072
    ensures CreateInputBounds(img, eps, CifarMean, CifarStd)[j] ==
              PixelBound(Pixels(img)[j], eps, CifarMean[j / 1024], CifarStd[j / 1024])
  {
    var ch, r, col := j / 1024, (j % 1024) / 32, (j % 1024) % 32;
    assert PixelIndex(ch, r, col) == j;
    PixelsLayout(img, eps, ch, r, col);
  }

  /** The normalised input y satisfies every input constraint of a table:
      X_j = (y_j - mean_c) / std_c, c = j / 1024 being the channel of j. */
  predicate SatisfiesInputBox(bounds: seq<Bound>, y: seq<real>)
    requires |y| <= 3072
  {
    CifarStdPositive();
    |bounds| == |y| &&
    forall j :: 0 <= j < |y| ==>
      bounds[j].lower <= Normalize(y[j], CifarMean[j / 1024], CifarStd[j / 1024]) <= bounds[j].upper
  }

  /** For an image in [0, 1] and eps >= 0, an input satisfies the input
      constraints of the image's property exactly when it consists of valid
      pixel values within eps of the image: the box the file states is the
      eps-ball of the image intersected with [0, 1]. */
  lemma InputBoxIsEpsBall(img: Image, eps: real, y: seq<real>)
    requires IsShaped(img, 3, 32, 32) && |y| == 3072
    requires eps >= 0.0 && InBox(Pixels(img), 0.0, 1.0)
    ensures |Pixels(img)| == 3072
    ensures SatisfiesInputBox(CreateInputBounds(img, eps, CifarMean, CifarStd), y) <==>
              InBox(y, 0.0, 1.0) && forall j :: 0 <= j < 3072 ==> Abs(y[j] - Pixels(img)[j]) <= eps
  {
    PixelsLength(img);
    CifarStdPositive();
    var b := CreateInputBounds(img, eps, CifarMean, CifarStd);
    var x := Pixels(img);
    FlatLayout(img, eps, 0);
    forall j | 0 <= j < 3072
      ensures b[j].lower <= Normalize(y[j], CifarMean[j / 1024], CifarStd[j / 1024]) <= b[j].upper <==>
                0.0 <= y[j] <= 1.0 && Abs(y[j] - x[j]) <= eps
    {
      FlatLayout(img, eps, j);
      PixelBoundExact(x[j], eps, CifarMean[j / 1024], CifarStd[j / 1024], y[j]);
    }
  }

  /** An image dropped after a successful attack has a counterexample inside
      the input box its property would have stated: the filter only drops
      images whose property would have been violated. */
  lemma BrokenViolatesProperty(samples: seq<Sample>, i: nat, c: Config)
    requires i < |samples| && CifarShaped(samples)
    requires c.eps >= 0.0 && PixelsInUnit(samples)
    requires ImageVerdict(samples, i, c).Broken?
    ensures var t := ImageVerdict(samples, i, c).target;
      exists y :: |y| == 3072 && c.model.classify(y) == t &&
        SatisfiesInputBox(CreateInputBounds(samples[i].image, c.eps, CifarMean, CifarStd), y)
  {
    var t := ImageVerdict(samples, i, c).target;
    BrokenHasCounterexample(samples, i, c);
    WitnessInBox(samples[i].image, c.eps, c.model.classify, t);
  }

  lemma WitnessInBox(img: Image, eps: real, classify: seq<real> -> int, t: int)
    requires IsShaped(img, 3, 32, 32) && eps >= 0.0 && InBox(Pixels(img), 0.0, 1.0)
    requires exists y :: |y| == |Pixels(img)| && InBox(y, 0.0, 1.0) && classify(y) == t &&
               forall k :: 0 <= k < |Pixels(img)| ==> Abs(y[k] - Pixels(img)[k]) <= eps
    ensures exists y :: |y| == 3072 && classify(y) == t &&
              SatisfiesInputBox(CreateInputBounds(img, eps, CifarMean, CifarStd), y)
  {
    var y :| |y| == |Pixels(img)| && InBox(y, 0.0, 1.0) && classify(y) == t &&
             forall k :: 0 <= k < |Pixels(img)| ==> Abs(y[k] - Pixels(img)[k]) <= eps;
    CounterexampleInBox(img, eps, y);
  }

  lemma CounterexampleInBox(img: Image, eps: real, y: seq<real>)
    requires IsShaped(img, 3, 32, 32) && eps >= 0.0 && InBox(Pixels(img), 0.0, 1.0)
    requires |y| == |Pixels(img)| && InBox(y, 0.0, 1.0)
    requires forall k :: 0 <= k < |y| ==> Abs(y[k] - Pixels(img)[k]) <= eps
    ensures |y| == 3072 && SatisfiesInputBox(CreateInputBounds(img, eps, CifarMean, CifarStd), y)
  {
    PixelsLength(img);
    InputBoxIsEpsBall(img, eps, y);
  }

  // ---------------------------------------------------------------------------
  // All epsilons

  /** The inputs shared by the passes: `num_imgs`, the model, the draws
      `noise(e, i, t)` of the attack on image i towards target t in the pass
      for epsilon number e, and the two float renderings. */
  datatype Setup = Setup(
    numImgs: int,
    model: Model,
    noise: (nat, nat, int) -> Draws,
    fmt: real -> string,
    fmtEps: real -> string)

  /** The configuration of the pass for epsilon number e. */
  function PassConfig(epsilons: seq<real>, e: nat, setup: Setup): Config
    requires e < |epsilons|
  {
    Config(epsilons[e], setup.numImgs, setup.model, (i: nat, t: int) => setup.noise(e, i, t), setup.fmt, setup.fmtEps)
  }

  /** The runs of the passes for epsilons 0..n-1, each from fresh counters
      (all three counters at zero). */
  function AllRuns(samples: seq<Sample>, epsilons: seq<real>, setup: Setup, n: nat): Result<seq<Run>, AttackError>
    requires n <= |epsilons| && CifarShaped(samples)
  {
    if n == 0 then Ok([])
    else match AllRuns(samples, epsilons, setup, n - 1)
      case Err(e) => Err(e)
      case Ok(runs) =>
        match FilterUpTo(samples, |samples|, PassConfig(epsilons, n - 1, setup))
        case Err(e) => Err(e)
        case Ok(run) => Ok(runs + [run])
  }

  /** The outer loop of `create_vnnlib`: one pass per epsilon, in order. */
  method CreateVnnlib(samples: seq<Sample>, epsilons: seq<real>, setup: Setup) returns (r: Result<seq<Run>, AttackError>)
    requires CifarShaped(samples)
    ensures r == AllRuns(samples, epsilons, setup, |epsilons|)
  {
    hide FilterUpTo; // each pass is taken from the contract of FilterImages
    var runs: seq<Run> := [];
    var e := 0;
    while e < |epsilons|
      invariant 0 <= e <= |epsilons|
      invariant AllRuns(samples, epsilons, setup, e) == Ok(runs)
    {
      var run := FilterImages(samples, PassConfig(epsilons, e, setup));
      if run.Err? {
        AllRunsCrashStays(samples, epsilons, setup, e + 1, |epsilons|);
        return Err(run.error);
      }
      runs := runs + [run.value];
      e := e + 1;
    }
    r := Ok(runs);
  }

  lemma {:induction false} AllRunsCrashStays(samples: seq<Sample>, epsilons: seq<real>, setup: Setup, n: nat, n': nat)
    requires n <= n' <= |epsilons| && CifarShaped(samples)
    requires AllRuns(samples, epsilons, setup, n).Err?
    ensures AllRuns(samples, epsilons, setup, n') == AllRuns(samples, epsilons, setup, n)
    decreases n' - n
  {
    hide FilterUpTo;
    if n < n' {
      AllRunsCrashStays(samples, epsilons, setup, n, n' - 1);
    }
  }

  /** One run per epsilon, in order, each being the pass for that epsilon. */
  lemma {:induction false} AllRunsPerEpsilon(samples: seq<Sample>, epsilons: seq<real>, setup: Setup, n: nat)
    requires n <= |epsilons| && CifarShaped(samples)
    requires AllRuns(samples, epsilons, setup, n).Ok?
    ensures var runs := AllRuns(samples, epsilons, setup, n).value;
      |runs| == n &&
      forall e :: 0 <= e < n ==>
        Ok(runs[e]) == FilterUpTo(samples, |samples|, PassConfig(epsilons, e, setup))
  {
    hide FilterUpTo;
    if n > 0 {
      AllRunsPerEpsilon(samples, epsilons, setup, n - 1);
    }
  }
}
