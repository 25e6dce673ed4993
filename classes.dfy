/** The class indices other than the true label, in the ascending order in
    which both the target sweep and the output disjunction visit them. */
module Classes {

  /** The indices 0..k-1 in ascending order, leaving out `trueLabel`
      (Python's `range(k)` is empty when k <= 0). */
  function OtherClasses(trueLabel: int, k: int): (r: seq<int>)
    decreases if k < 0 then 0 else k
  {
    if k <= 0 then []
    else OtherClasses(trueLabel, k - 1) + (if k - 1 == trueLabel then [] else [k - 1])
  }

  /** Membership: exactly the indices in [0, k) different from the true label. */
  lemma {:induction false} OtherClassesMembers(trueLabel: int, k: int, t: int)
    ensures t in OtherClasses(trueLabel, k) <==> 0 <= t < k && t != trueLabel
    decreases if k < 0 then 0 else k
  {
    if k > 0 {
      OtherClassesMembers(trueLabel, k - 1, t);
    }
  }

  /** Strictly ascending, hence without repetitions. */
  lemma {:induction false} OtherClassesAscending(trueLabel: int, k: int)
    ensures forall i, j :: 0 <= i < j < |OtherClasses(trueLabel, k)| ==>
              OtherClasses(trueLabel, k)[i] < OtherClasses(trueLabel, k)[j]
    decreases if k < 0 then 0 else k
  {
    if k > 0 {
      OtherClassesAscending(trueLabel, k - 1);
      var prev := OtherClasses(trueLabel, k - 1);
      forall i | 0 <= i < |prev| ensures prev[i] < k - 1 {
        OtherClassesMembers(trueLabel, k - 1, prev[i]);
      }
    }
  }

  /** k-1 indices when the true label is one of the k classes, k otherwise. */
  lemma {:induction false} OtherClassesLength(trueLabel: int, k: int)
    ensures |OtherClasses(trueLabel, k)| ==
              if k <= 0 then 0 else if 0 <= trueLabel < k then k - 1 else k
    decreases if k < 0 then 0 else k
  {
    if k > 0 {
      OtherClassesLength(trueLabel, k - 1);
    }
  }

  /** Visiting fewer classes gives a prefix of the longer visit. */
  lemma {:induction false} OtherClassesPrefix(trueLabel: int, a: int, b: int)
    requires a <= b
    ensures OtherClasses(trueLabel, a) <= OtherClasses(trueLabel, b)
    decreases b - a
  {
    if a < b {
      OtherClassesPrefix(trueLabel, a, b - 1);
    }
  }
}
