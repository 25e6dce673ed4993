# CIFAR10-ResNet property generator, modelled in Dafny

The CIFAR10-ResNet benchmark ships a script that generates VNN-LIB
robustness properties. For every epsilon it walks the CIFAR-10 test
images in the order `load_data` delivers them (a seeded shuffle unless
`--deterministic` is given):

- it skips each image the model misclassifies;
- it runs a targeted PGD attack (projected gradient descent) towards every
  other class, in ascending order, and skips the image when an attack
  succeeds;
- for each image that survives every attack, it writes a property file
  `prop_<cnt>_eps_<eps>.vnnlib`;
- it stops once `num_imgs` files are written.

The file states the image's normalised L∞ input box, as derived by
`create_input_bounds`. Its output constraint is the disjunction "some other
class scores at least as high as the true label", which a verifier must show
unsatisfiable.

This project models four parts of the script's core and proves what the
code promises about each:

- **The VNN-LIB writer** (`vnnlib.dfy`, module `Vnnlib`). `SaveVnnlib`
  appends lines section after section, as the script's `f.write` calls
  do. It is proved equal to the function `PropertyLines`. "Reader" lemmas
  then select the lines by prefix. They show that the file declares exactly
  `X_0..X_{N-1}` and `Y_0..Y_{k-1}`, that it asserts each input's upper and
  then lower bound, and that the disjunction holds one line per class other
  than the label, with `Y_label` never on the left.
- **The input box** (`input_bounds.dfy`, module `InputBounds`). Clipping,
  per-channel normalisation and channel-major flattening are modelled over
  the reals. The lemmas prove the layout, the ordering of the bounds, the
  degenerate box at eps = 0, and that a row is exactly the normalised
  eps-ball of its pixel intersected with [0, 1].
- **The PGD attack** (`pgd.dfy`, module `Pgd`). `AttackPgd` follows
  `attack_pgd`'s restart and step loops and is proved equal to a closed
  form, `AttackOutcome`. It covers:
  - the projected step;
  - the running `max_loss` and `max_delta` with the strict `>` test against
    an initial -100;
  - the final assertion and the final prediction.

  The network enters only as oracles: gradient, loss and prediction.
- **The filter** (`filter.dfy`, module `Filter`).
  - `SweepTargets` is the loop over targets.
  - `FilterImages` is the image loop for one epsilon, with the counters
    `acc`, `pgd_acc` and `cnt` and the files written.
  - `CreateVnnlib` is the loop over epsilons.

  Each method is proved equal to a recursive specification function. The
  lemmas about those functions state the counters, the numbering and the
  distinct names of the files, the provenance of every file, what is
  counted when the quota is not reached, and that no attack fails for
  images in [0, 1]. They also state that an image the filter drops has a
  counterexample inside the box its property would have stated.

`text.dfy` (module `Text`) renders integers in decimal, as Python's
f-strings do. It proves the rendering injective, which the reader lemmas
and the file-name lemma need. `classes.dfy` (module `Classes`) defines the
ascending list of classes other than the label. The target sweep and the
disjunction share it.

### Behaviour of the code worth noting

The model follows the code in each case.

- Lines 44-45 clamp the initial perturbation to the value box only, not to
  [-eps, eps]. `Pgd.InitialDeltaMayExceedEps` exhibits a start outside
  [-eps, eps]. The assertion at line 75 still holds, because every step
  clips to [-eps, eps].
- `all_loss` is assigned only inside the step loop. With zero steps line 71
  reads an unbound `all_loss`, and with zero restarts line 75 reads an
  unbound `delta`. `Pgd.AttackOutcome` returns `Err(UnboundVariable)` in
  both cases.
- Line 75 asserts the eps bound on `delta`, the last restart's
  perturbation, not on the kept `max_delta`.
- The `runnerup` passed to `save_vnnlib` is always 9 for an accepted image,
  because the target loop ran to its end. `save_vnnlib` never reads it.

## Model

| member | source | states |
|---|---|---|
| Vnnlib.SaveVnnlib | benchmarks/cifar10_resnet/pytorch_model/generate_properties_pgd.py:153-207 | The lines written are exactly `PropertyLines(bounds, label, k, fmt)`: they do not depend on `runnerup`. |
| Vnnlib.WriteInputDeclarations | benchmarks/cifar10_resnet/pytorch_model/generate_properties_pgd.py:176-177 | The loop appends exactly the declarations of `X_0..X_{n-1}`, in order. |
| Vnnlib.WriteOutputDeclarations | benchmarks/cifar10_resnet/pytorch_model/generate_properties_pgd.py:182-183 | The loop appends exactly the declarations of `Y_0..Y_{k-1}`, none when k <= 0. |
| Vnnlib.WriteInputConstraints | benchmarks/cifar10_resnet/pytorch_model/generate_properties_pgd.py:188-191 | The loop appends, row by row, the upper bound (column 1), the lower bound (column 0) and a blank line. |
| Vnnlib.WriteDisjuncts | benchmarks/cifar10_resnet/pytorch_model/generate_properties_pgd.py:204-206 | The loop appends one disjunct per class in [0, k) other than the label, in ascending order. |
| Vnnlib.DeclaredInputs | benchmarks/cifar10_resnet/pytorch_model/generate_properties_pgd.py:175-178 | The file's `X` declarations are exactly `X_0..X_{N-1}` in ascending order, N being the number of bound rows. |
| Vnnlib.DeclaredOutputs | benchmarks/cifar10_resnet/pytorch_model/generate_properties_pgd.py:181-184 | The file's `Y` declarations are exactly `Y_0..Y_{k-1}` in ascending order. |
| Vnnlib.Assertions | benchmarks/cifar10_resnet/pytorch_model/generate_properties_pgd.py:187-203 | The file's assertions are the bound assertions of every row, row by row, followed by the single output assertion `(assert (or`. |
| Vnnlib.BoundAssertionsAt | benchmarks/cifar10_resnet/pytorch_model/generate_properties_pgd.py:188-190 | There are exactly two bound assertions per row. Row i's upper bound `(<= X_i ub_i)` is assertion 2i and its lower bound `(>= X_i lb_i)` is assertion 2i+1. |
| Vnnlib.DisjunctLines | benchmarks/cifar10_resnet/pytorch_model/generate_properties_pgd.py:203-207 | The disjunct lines of the file are exactly one `(and (>= Y_t Y_label))` per class t other than the label, in ascending t. |
| Vnnlib.DisjunctCount | benchmarks/cifar10_resnet/pytorch_model/generate_properties_pgd.py:204-206 | With the label among the k classes there are exactly k-1 disjuncts. |
| Vnnlib.DisjunctLeftIndex | benchmarks/cifar10_resnet/pytorch_model/generate_properties_pgd.py:206 | The disjunct for class t has `Y_m` on its left if and only if t == m. |
| Vnnlib.LabelNeverOnLeft | benchmarks/cifar10_resnet/pytorch_model/generate_properties_pgd.py:203-207 | No line of the file has `Y_label` on the left of a disjunct. |
| Classes.OtherClassesMembers | benchmarks/cifar10_resnet/pytorch_model/generate_properties_pgd.py:296-298 | The visited classes are exactly those in [0, k) other than the label. |
| Classes.OtherClassesAscending | benchmarks/cifar10_resnet/pytorch_model/generate_properties_pgd.py:296-298 | The classes are visited in strictly ascending order, so none twice. |
| Classes.OtherClassesLength | benchmarks/cifar10_resnet/pytorch_model/generate_properties_pgd.py:204-205 | k-1 classes are visited when the label is one of the k classes, k otherwise, 0 when k <= 0. |
| Classes.OtherClassesPrefix | benchmarks/cifar10_resnet/pytorch_model/generate_properties_pgd.py:296-298 | Stopping the visit earlier yields a prefix of the full visit. |
| Text.NatStrRoundTrip | benchmarks/cifar10_resnet/pytorch_model/generate_properties_pgd.py:177 | Reading back the decimal text of an index gives the index. |
| Text.NatStrInjective | benchmarks/cifar10_resnet/pytorch_model/generate_properties_pgd.py:317 | Different numbers have different decimal texts. |
| Text.IntStrInjective | benchmarks/cifar10_resnet/pytorch_model/generate_properties_pgd.py:172 | Different integers, signed ones included, have different decimal texts. |
| InputBounds.CreateInputBounds | benchmarks/cifar10_resnet/pytorch_model/generate_properties_pgd.py:117-149 | The table `create_input_bounds` returns. It has no contract of its own: `InputBoundsLayout`, `RowOfSomePixel`, `InputBoundsOrdered`, `InputBoundsDegenerate` and `PixelBoundExact` specify it. |
| InputBounds.InputBoundsLayout | benchmarks/cifar10_resnet/pytorch_model/generate_properties_pgd.py:144-149 | A C×H×W image gives C·H·W rows. Pixel (ch, r, col) gives row ch·H·W + r·W + col, with lower `(clip(p-eps,0,1)-mean_ch)/std_ch` and upper `(clip(p+eps,0,1)-mean_ch)/std_ch`. |
| InputBounds.RowOfSomePixel | benchmarks/cifar10_resnet/pytorch_model/generate_properties_pgd.py:144-149 | Every row of the table is the row of some pixel of the image. |
| InputBounds.NormalizeMonotone | benchmarks/cifar10_resnet/pytorch_model/generate_properties_pgd.py:145-146 | With a positive deviation, normalisation preserves and reflects order. |
| InputBounds.InputBoundsOrdered | benchmarks/cifar10_resnet/pytorch_model/generate_properties_pgd.py:141-149 | With eps >= 0 and positive deviations every row has lower <= upper. |
| InputBounds.InputBoundsDegenerate | benchmarks/cifar10_resnet/pytorch_model/generate_properties_pgd.py:145-146 | With eps = 0 every row has lower == upper. |
| InputBounds.PixelBoundExact | benchmarks/cifar10_resnet/pytorch_model/generate_properties_pgd.py:145-146 | For a pixel p in [0, 1], a normalised value lies in p's row if and only if it normalises some q in [0, 1] with abs(q - p) <= eps. |
| InputBounds.CifarStdPositive | benchmarks/cifar10_resnet/pytorch_model/generate_properties_pgd.py:117-119 | The default means and deviations have three channels and the deviations are positive. |
| Pgd.Sign | benchmarks/cifar10_resnet/pytorch_model/generate_properties_pgd.py:62 | The sign is -1, 0 or 1 and times g gives abs(g). |
| Pgd.ScriptParams | benchmarks/cifar10_resnet/pytorch_model/generate_properties_pgd.py:301-304 | The attack arguments of `create_vnnlib`: the pass's epsilon, the defaults of line 31 (alpha 0.5/255, 50 steps, 5 restarts) and the box [0, 1]. The contract states what the no-failure lemmas rely on: at least one restart and one step, alpha > 0, lower 0 and upper 1. |
| Pgd.Clamp | benchmarks/cifar10_resnet/pytorch_model/generate_properties_pgd.py:33-34 | `torch.max(torch.min(X, upper), lower)` on one element: the result is never below the lower limit, is within [lower, upper] when lower <= upper, and leaves a value already in [lower, upper] unchanged. |
| Pgd.InitialDelta | benchmarks/cifar10_resnet/pytorch_model/generate_properties_pgd.py:44-45 | The start of a restart keeps x + delta in [lower, upper] whenever lower <= upper. |
| Pgd.InitialDeltaMayExceedEps | benchmarks/cifar10_resnet/pytorch_model/generate_properties_pgd.py:44-45 | The start of a restart need not lie within [-eps, eps]: x = 0.5, noise 0.9 and eps = 0.1 give 0.5. |
| Pgd.ProjectStep | benchmarks/cifar10_resnet/pytorch_model/generate_properties_pgd.py:59-65 | For x in the box and eps >= 0, one step from any delta gives abs(delta') <= eps elementwise and keeps x + delta' in the box. |
| Pgd.Iterate | benchmarks/cifar10_resnet/pytorch_model/generate_properties_pgd.py:47-66 | After at least one step the perturbation is within eps and keeps x + delta in the box. |
| Pgd.ClampedSum | benchmarks/cifar10_resnet/pytorch_model/generate_properties_pgd.py:77 | The clamped input lies in [lower, upper], and equals x + d when x + d is already there. |
| Pgd.SelectBest | benchmarks/cifar10_resnet/pytorch_model/generate_properties_pgd.py:71-73 | The running `max_loss`/`max_delta` update over the restarts. Its contract says a kept restart index is a real restart; `SelectBestCorrect` gives the rest. |
| Pgd.SelectBestCorrect | benchmarks/cifar10_resnet/pytorch_model/generate_properties_pgd.py:39-73 | `max_loss` ends as the maximum of -100 and all final losses. A restart's delta is kept if and only if some loss exceeds -100. The kept restart is the first that attains the maximum, so ties keep the earlier one. Otherwise `max_delta` stays zero and `max_loss` stays -100. |
| Pgd.AttackPgd | benchmarks/cifar10_resnet/pytorch_model/generate_properties_pgd.py:31-81 | The restart and step loops return exactly `AttackOutcome`. That is an unbound-variable error with no restarts or no steps, and an assertion failure when the last restart's delta leaves [-eps, eps]. Otherwise it is whether the model predicts the target on clamp(x + max_delta). |
| Pgd.FinalDeltaFeasible | benchmarks/cifar10_resnet/pytorch_model/generate_properties_pgd.py:47-75 | With at least one step, x in the box and eps >= 0, every restart ends within eps and inside the box. |
| Pgd.ChosenDeltaFeasible | benchmarks/cifar10_resnet/pytorch_model/generate_properties_pgd.py:71-77 | The kept `max_delta` is within eps and keeps x inside the box, so the final clamp changes nothing. |
| Pgd.AttackReturnsInBox | benchmarks/cifar10_resnet/pytorch_model/generate_properties_pgd.py:71-75 | With at least one restart and one step, x in the box and eps >= 0, the attack returns: no variable is unbound and the assertion holds. |
| Pgd.ZeroEpsKeepsPrediction | benchmarks/cifar10_resnet/pytorch_model/generate_properties_pgd.py:31-81 | With eps = 0, at least one restart and one step and x in the box, the attack returns whether the model's prediction on x itself is the target. |
| Pgd.SuccessIsCounterexample | benchmarks/cifar10_resnet/pytorch_model/generate_properties_pgd.py:77-81 | A reported success yields an input inside the box within eps of x that the model classifies as the target. |
| Filter.SweepTargets | benchmarks/cifar10_resnet/pytorch_model/generate_properties_pgd.py:295-306 | The loop's verdict is the first success over the classes 0..9 without the label. `runnerup` is the successful target, or 9 when no attack succeeds. |
| Filter.FirstSuccess | benchmarks/cifar10_resnet/pytorch_model/generate_properties_pgd.py:296-306 | The loop over targets with its break. It has no contract of its own: `FirstSuccessCases`, `SweepRobust`, `SweepBroken` and `SweepStep` specify it. |
| Filter.FirstSuccessCases | benchmarks/cifar10_resnet/pytorch_model/generate_properties_pgd.py:296-306 | The sweep is robust if and only if every attack returns False. A broken verdict names a target whose attack succeeded after all earlier ones returned False. |
| Filter.SweepRobust | benchmarks/cifar10_resnet/pytorch_model/generate_properties_pgd.py:295-309 | An image survives if and only if the attack towards every class other than the label returns False. |
| Filter.SweepBroken | benchmarks/cifar10_resnet/pytorch_model/generate_properties_pgd.py:295-309 | A broken verdict names a class t other than the label whose attack succeeded, after every lower class other than the label failed. |
| Filter.SweepStep | benchmarks/cifar10_resnet/pytorch_model/generate_properties_pgd.py:296-306 | The label is skipped. Any other class either lets the sweep go on, when its attack returns False, or decides the verdict. |
| Filter.FirstSuccessConcat | benchmarks/cifar10_resnet/pytorch_model/generate_properties_pgd.py:296-306 | Sweeping a + b gives the verdict on a unless a is survived, and then the verdict on b. |
| Filter.SweepNoCrash | benchmarks/cifar10_resnet/pytorch_model/generate_properties_pgd.py:296-306 | When no attack fails, the sweep does not fail either. |
| Filter.FileNameInjective | benchmarks/cifar10_resnet/pytorch_model/generate_properties_pgd.py:317 | Two file names are equal only for the same property number and the same epsilon text. |
| Filter.AttackImage | benchmarks/cifar10_resnet/pytorch_model/generate_properties_pgd.py:295-306 | The attacks on image i give its verdict, and `runnerup` is 9 when the image survives. |
| Filter.WriteProperty | benchmarks/cifar10_resnet/pytorch_model/generate_properties_pgd.py:315-319 | The file written is named after `cnt` and epsilon and holds the property of the image's input box and label. |
| Filter.LookAtImage | benchmarks/cifar10_resnet/pytorch_model/generate_properties_pgd.py:270-306 | The look at image i: misclassified when the clean prediction differs from the label, and otherwise the verdict of the attacks. `runnerup` is 9 when the image survives. |
| Filter.LookAccepted | benchmarks/cifar10_resnet/pytorch_model/generate_properties_pgd.py:272-312 | A look is "attacked and robust" exactly for an accepted image, and "attacked" exactly when the clean prediction is correct. This is definitional: it unfolds `LookAt` and `Accepted`. |
| Filter.ExamineImage | benchmarks/cifar10_resnet/pytorch_model/generate_properties_pgd.py:270-320 | One turn of the image loop after the quota test extends the pass over the earlier images by this image's look. |
| Filter.FilterImages | benchmarks/cifar10_resnet/pytorch_model/generate_properties_pgd.py:264-320 | The image loop for one epsilon ends exactly in the state `FilterUpTo` gives over all images. That covers the quota break, the skip of misclassified images, the skip of broken images, and a file per accepted image. |
| Filter.Examine | benchmarks/cifar10_resnet/pytorch_model/generate_properties_pgd.py:270-320 | The body of the image loop for one image. It has no contract of its own: `PassCounters`, `PassAccepted` and `PassComplete` state what its repetition counts. |
| Filter.Pass | benchmarks/cifar10_resnet/pytorch_model/generate_properties_pgd.py:266-320 | The image loop over a prefix of the images, with the quota break. It has no contract of its own: `PassCounters`, `PassAccepted`, `PassComplete`, `PassStops` and `PassCrashStays` specify it. |
| Filter.PassNext | benchmarks/cifar10_resnet/pytorch_model/generate_properties_pgd.py:266-268 | The next image is examined exactly when the pass has not failed and `cnt` is below `num_imgs`. This is definitional: it unfolds `Pass` once for the appended image. |
| Filter.PassStops | benchmarks/cifar10_resnet/pytorch_model/generate_properties_pgd.py:266-268 | Once `cnt` reaches `num_imgs`, the images after that change nothing. |
| Filter.PassCrashStays | benchmarks/cifar10_resnet/pytorch_model/generate_properties_pgd.py:301-306 | Once an attack has failed, the images after that change nothing. |
| Filter.PassCounters | benchmarks/cifar10_resnet/pytorch_model/generate_properties_pgd.py:264-320 | After any prefix of the images, `pgd_acc == cnt ==` the number of accepted images, `cnt <= acc <=` the number of images, and `cnt <= num_imgs`, with nothing accepted when `num_imgs <= 0`. |
| Filter.PassAccepted | benchmarks/cifar10_resnet/pytorch_model/generate_properties_pgd.py:270-320 | The accepted images are, in strictly ascending order, images that were attacked and survived every attack. |
| Filter.PassComplete | benchmarks/cifar10_resnet/pytorch_model/generate_properties_pgd.py:264-320 | While `cnt` is below `num_imgs`, `acc` counts every attacked image and `cnt` every robust one. |
| Filter.PassNoCrash | benchmarks/cifar10_resnet/pytorch_model/generate_properties_pgd.py:266-320 | Without a failed sweep among the images, the pass does not fail. |
| Filter.FilterTurn | benchmarks/cifar10_resnet/pytorch_model/generate_properties_pgd.py:266-320 | When `cnt` is below `num_imgs`, image i is examined: the state after it is `Examine` of the state before and its look. |
| Filter.FilterEnd | benchmarks/cifar10_resnet/pytorch_model/generate_properties_pgd.py:266-320 | When the loop stops after image n-1, at the quota or after the last image, its state is the one for all images, and the files are those of the accepted images in order. |
| Filter.FilterFails | benchmarks/cifar10_resnet/pytorch_model/generate_properties_pgd.py:301-306 | A failed attack on an image ends the loop with that failure. |
| Filter.FilterStops | benchmarks/cifar10_resnet/pytorch_model/generate_properties_pgd.py:267-268 | Once `cnt` reaches `num_imgs` the state no longer changes. |
| Filter.FilterCrashStays | benchmarks/cifar10_resnet/pytorch_model/generate_properties_pgd.py:75 | A failed attack aborts the whole run. |
| Filter.FilterCounters | benchmarks/cifar10_resnet/pytorch_model/generate_properties_pgd.py:264-320 | `pgd_acc == cnt ==` the number of files written, and `cnt <= acc <=` the number of images seen. `cnt <= num_imgs`, and none are written when `num_imgs <= 0`. File j is named `prop_j_eps_...`. |
| Filter.FileNamesDistinct | benchmarks/cifar10_resnet/pytorch_model/generate_properties_pgd.py:317 | Within one epsilon no two files share a name. |
| Filter.FilterProvenance | benchmarks/cifar10_resnet/pytorch_model/generate_properties_pgd.py:270-320 | File j is the property numbered j of an image that is classified correctly and survives every attack. The images of files 0, 1, 2, ... come in strictly ascending order. |
| Filter.FilterComplete | benchmarks/cifar10_resnet/pytorch_model/generate_properties_pgd.py:264-320 | While the quota is not reached, `acc` counts every correctly classified image and `cnt` every accepted one. |
| Filter.VerdictNoCrash | benchmarks/cifar10_resnet/pytorch_model/generate_properties_pgd.py:295-306 | For eps >= 0 and pixels in [0, 1] no attack on an image fails. |
| Filter.FilterNoCrash | benchmarks/cifar10_resnet/pytorch_model/generate_properties_pgd.py:264-320 | For eps >= 0 and pixels in [0, 1] the pass over the images runs to its end. |
| Filter.ZeroEpsVerdict | benchmarks/cifar10_resnet/pytorch_model/generate_properties_pgd.py:272-306 | With eps = 0 and pixels in [0, 1], an image survives the attacks unless its clean prediction is another of the ten classes, and then it is broken towards that class. So an image is accepted exactly when its clean prediction is correct. |
| Filter.BrokenHasCounterexample | benchmarks/cifar10_resnet/pytorch_model/generate_properties_pgd.py:305-310 | An image dropped after an attack has, for a class t other than its label, an input in [0, 1] within eps of it that the model's classifier takes for t. |
| Filter.PixelsLayout | benchmarks/cifar10_resnet/pytorch_model/generate_properties_pgd.py:141-149 | Pixel (ch, r, col) is element ch·1024 + r·32 + col of the attacked input, and that element's row of the table is the pixel's row. |
| Filter.InputBoxIsEpsBall | benchmarks/cifar10_resnet/pytorch_model/generate_properties_pgd.py:141-149 | For an image in [0, 1] and eps >= 0, an input satisfies the property's input constraints if and only if it lies in [0, 1] and within eps of the image. |
| Filter.BrokenViolatesProperty | benchmarks/cifar10_resnet/pytorch_model/generate_properties_pgd.py:305-315 | A dropped image has a counterexample inside the input box its property would have stated. |
| Filter.CreateVnnlib | benchmarks/cifar10_resnet/pytorch_model/generate_properties_pgd.py:263-266 | The loop over epsilons gives exactly `AllRuns`: one pass per epsilon, each starting from zero counters. |
| Filter.AllRunsPerEpsilon | benchmarks/cifar10_resnet/pytorch_model/generate_properties_pgd.py:263-320 | There is one run per epsilon, in order, and run e is the pass of the image loop for epsilon e. |
| Filter.AllRunsCrashStays | benchmarks/cifar10_resnet/pytorch_model/generate_properties_pgd.py:263-320 | A failed attack in one pass aborts the remaining passes. |

## Left out

- The network, automatic differentiation, cross-entropy and arg-max are
  oracles. `Network.grad(d, i)` gives element i of the loss gradient at
  perturbation d, `Network.loss` the targeted loss and `Network.classify`
  the prediction. There is one classifier, `Model.classify` on the
  flattened image. It gives the clean prediction, and every attack's
  network carries it as `Network.classify`, so the attack's final prediction
  uses the same classifier (`Filter.AttackNet`). Nothing about the numerics
  of these oracles is modelled.
- `torch.rand` is a parameter. For one attack, `noise(k, i)` is the
  uniform draw for element i in restart k. A pass gets these draws per
  image and target, and the run gets them per epsilon as well.
- Float32 arithmetic is replaced by exact reals. The decimal text of a
  bound and the `.3f` text of epsilon are the parameters `fmt` and
  `fmtEps`. Two epsilons with the same three-decimal text therefore give the
  same file names. The model proves names distinct within one epsilon only.
- File-system I/O is modelled as the list of (name, lines) pairs written,
  and writing a file as producing its lines.
- Filter.FilterImages, Filter.CreateVnnlib: after a failed attack the
  result is the error alone. The files already written in that pass and in
  the passes for earlier epsilons stay on disk in the script, but the model
  does not report them. By `FilterNoCrash` this path cannot occur for eps >= 0
  and pixels in [0, 1]. Directory creation and
  overwriting existing files are not modelled.
- Batch size is 1, as the script always calls the attack. The untargeted
  branch (`target is None`) is not modelled, because the script always
  passes a target.
- Pgd.AttackPgd: the network input is the flattened image, and the attack
  is modelled for |x| >= 1 only.
- Filter.FilterImages: images are required to be 3×32×32, as CIFAR-10
  images are. Pixels being in [0, 1] is a hypothesis of the no-crash and
  counterexample lemmas only.
- Pgd.AttackOutcome: `WithinEps` stands for the tensor test at line 75 on a
  non-empty perturbation.
- `load_data`, `create_csv`, the model construction and loading, seeding,
  CUDA settings, the `eval` of the epsilon strings, and the command-line
  entry point are not part of this model.
- Printing is not modelled, including the final summary line that reports
  the last image index.
