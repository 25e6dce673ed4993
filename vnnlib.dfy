/** The VNN-LIB property writer (`save_vnnlib`). The file is modelled as the
    sequence of its lines; every `f.write` of the script ends its text with
    exactly one newline, so the file's content is each line followed by "\n".
    The decimal text of a bound (Python's formatting of a float32 item) is
    left abstract as the parameter `fmt`. */
module Vnnlib {
  import opened Text
  import opened Classes
  import opened InputBounds

  // ---------------------------------------------------------------------------
  // The lines the writer emits

  function HeaderLine(trueLabel: int): string {
    "; CIFAR10 property with label: " + IntStr(trueLabel) + "."
  }

  function DeclareInput(i: nat): string {
    "(declare-const X_" + NatStr(i) + " Real)"
  }

  function DeclareOutput(i: nat): string {
    "(declare-const Y_" + NatStr(i) + " Real)"
  }

  /** `(assert (<= X_i ub))`, the upper bound of input i (column 1). */
  function UpperConstraint(i: nat, v: string): string {
    "(assert (<= X_" + NatStr(i) + " " + v + "))"
  }

  /** `(assert (>= X_i lb))`, the lower bound of input i (column 0). */
  function LowerConstraint(i: nat, v: string): string {
    "(assert (>= X_" + NatStr(i) + " " + v + "))"
  }

  /** One disjunct of the output assertion, `    (and (>= Y_t Y_label))`:
      output t is at least the true label's. */
  function Disjunct(t: int, trueLabel: int): string {
    DisjunctPrefix + (IntStr(t) + DisjunctRest(trueLabel))
  }

  /** What follows the left operand of a disjunct. */
  function DisjunctRest(trueLabel: int): string {
    " Y_" + IntStr(trueLabel) + "))"
  }

  /** The start of a disjunct up to its left operand `Y_m` and the blank after it. */
  function LeftOperand(m: int): string {
    DisjunctPrefix + (IntStr(m) + " ")
  }

  const InputPrefix: string := "(declare-const X_"
  const OutputPrefix: string := "(declare-const Y_"
  const DisjunctPrefix: string := "    (and (>= Y_"

  /** The length of Python's `range(k)`. */
  function RangeLength(k: int): nat {
    if k < 0 then 0 else k
  }

  // ---------------------------------------------------------------------------
  // The file, section by section

  function InputDeclarations(n: nat): seq<string> {
    seq(n, i requires 0 <= i < n => DeclareInput(i))
  }

  function OutputDeclarations(k: int): seq<string> {
    seq(RangeLength(k), i requires 0 <= i < RangeLength(k) => DeclareOutput(i))
  }

  /** For each row i: its upper bound, its lower bound, a blank line. */
  function InputConstraints(bounds: seq<Bound>, fmt: real -> string): seq<string> {
    if bounds == [] then []
    else
      var n := |bounds| - 1;
      InputConstraints(bounds[..n], fmt)
        + [UpperConstraint(n, fmt(bounds[n].upper)), LowerConstraint(n, fmt(bounds[n].lower)), ""]
  }

  function Disjuncts(trueLabel: int, k: int): seq<string> {
    var ts := OtherClasses(trueLabel, k);
    seq(|ts|, j requires 0 <= j < |ts| => Disjunct(ts[j], trueLabel))
  }

  /** The lines the writer emits for a bounds table, a label and k output classes. */
  function PropertyLines(bounds: seq<Bound>, trueLabel: int, k: int, fmt: real -> string): seq<string> {
    [HeaderLine(trueLabel)] + [""]
      + InputDeclarations(|bounds|) + [""]
      + [""] + OutputDeclarations(k) + [""]
      + ["; Input constraints:"] + InputConstraints(bounds, fmt) + [""]
      + ["; Output constraints:"] + ["(assert (or"] + Disjuncts(trueLabel, k) + ["))"]
  }

  lemma InputDeclarationsNext(i: nat)
    ensures InputDeclarations(i + 1) == InputDeclarations(i) + [DeclareInput(i)]
  {
  }

  lemma OutputDeclarationsNext(i: nat)
    ensures OutputDeclarations(i + 1) == OutputDeclarations(i) + [DeclareOutput(i)]
  {
  }

  lemma DisjunctsNext(trueLabel: int, i: nat)
    ensures Disjuncts(trueLabel, i + 1)
              == Disjuncts(trueLabel, i) + (if i == trueLabel then [] else [Disjunct(i, trueLabel)])
  {
    assert OtherClasses(trueLabel, i + 1)
             == OtherClasses(trueLabel, i) + (if i == trueLabel then [] else [i]);
  }

  /** `save_vnnlib`, written as the script writes it: section after section,
      appending one line per `f.write`. The `runnerup` argument is accepted
      and never read. */
  method SaveVnnlib(bounds: seq<Bound>, trueLabel: int, runnerup: int, k: int, fmt: real -> string)
    returns (lines: seq<string>)
    ensures lines == PropertyLines(bounds, trueLabel, k, fmt)
  {
    lines := [HeaderLine(trueLabel)];
    lines := lines + [""];
    lines := WriteInputDeclarations(lines, |bounds|);
    lines := lines + [""];
    lines := lines + [""];
    lines := WriteOutputDeclarations(lines, k);
    lines := lines + [""];
    lines := lines + ["; Input constraints:"];
    lines := WriteInputConstraints(lines, bounds, fmt);
    lines := lines + [""];
    lines := lines + ["; Output constraints:"];
    lines := lines + ["(assert (or"];
    lines := WriteDisjuncts(lines, trueLabel, k);
    lines := lines + ["))"];
  }

  /** The loop declaring the inputs `X_0 .. X_{n-1}`, one line each. */
  method WriteInputDeclarations(before: seq<string>, n: nat) returns (lines: seq<string>)
    ensures lines == before + InputDeclarations(n)
  {
    lines := before;
    var i := 0;
    while i < n
      invariant 0 <= i <= n
      invariant lines == before + InputDeclarations(i)
    {
      InputDeclarationsNext(i);
      lines := lines + [DeclareInput(i)];
      i := i + 1;
    }
  }

  /** The loop declaring the outputs `Y_0 .. Y_{k-1}`. */
  method WriteOutputDeclarations(before: seq<string>, k: int) returns (lines: seq<string>)
    ensures lines == before + OutputDeclarations(k)
  {
    lines := before;
    var i := 0;
    while i < k
      invariant 0 <= i <= RangeLength(k)
      invariant lines == before + OutputDeclarations(i)
    {
      OutputDeclarationsNext(i);
      lines := lines + [DeclareOutput(i)];
      i := i + 1;
    }
    assert OutputDeclarations(i) == OutputDeclarations(k);
  }

  /** The loop writing, per row, the upper bound, the lower bound and a blank line. */
  method WriteInputConstraints(before: seq<string>, bounds: seq<Bound>, fmt: real -> string)
    returns (lines: seq<string>)
    ensures lines == before + InputConstraints(bounds, fmt)
  {
    lines := before;
    var i := 0;
    while i < |bounds|
      invariant 0 <= i <= |bounds|
      invariant lines == before + InputConstraints(bounds[..i], fmt)
    {
      assert bounds[..i + 1][..i] == bounds[..i];
      lines := lines + [UpperConstraint(i, fmt(bounds[i].upper))];
      lines := lines + [LowerConstraint(i, fmt(bounds[i].lower))];
      lines := lines + [""];
      i := i + 1;
    }
    assert bounds[..i] == bounds;
  }

  /** The loop writing one disjunct for every class other than the label. */
  method WriteDisjuncts(before: seq<string>, trueLabel: int, k: int) returns (lines: seq<string>)
    ensures lines == before + Disjuncts(trueLabel, k)
  {
    lines := before;
    var i := 0;
    while i < k
      invariant 0 <= i <= RangeLength(k)
      invariant lines == before + Disjuncts(trueLabel, i)
    {
      DisjunctsNext(trueLabel, i);
      if i != trueLabel {
        lines := lines + [Disjunct(i, trueLabel)];
      }
      i := i + 1;
    }
    assert Disjuncts(trueLabel, i) == Disjuncts(trueLabel, k);
  }

  // ---------------------------------------------------------------------------
  // Reading the file back: the lines that start with a given prefix

  predicate HasPrefix(s: string, p: string) {
    |p| <= |s| && forall j :: 0 <= j < |p| ==> s[j] == p[j]
  }

  /** The lines that start with p, in file order. */
  function Select(lines: seq<string>, p: string): seq<string> {
    if lines == [] then []
    else (if HasPrefix(lines[0], p) then [lines[0]] else []) + Select(lines[1..], p)
  }

  /** A line is selected exactly when it is in the file and starts with p. */
  lemma {:induction false} SelectMember(lines: seq<string>, p: string, x: string)
    ensures x in Select(lines, p) <==> x in lines && HasPrefix(x, p)
  {
    if lines != [] {
      SelectMember(lines[1..], p, x);
      assert lines == [lines[0]] + lines[1..];
    }
  }

  lemma SelectOne(x: string, p: string)
    ensures Select([x], p) == if HasPrefix(x, p) then [x] else []
  {
    assert [x][1..] == [];
  }

  lemma {:induction false} SelectConcat(a: seq<string>, b: seq<string>, p: string)
    ensures Select(a + b, p) == Select(a, p) + Select(b, p)
  {
    if a != [] {
      assert (a + b)[1..] == a[1..] + b;
      SelectConcat(a[1..], b, p);
    } else {
      assert a + b == b;
    }
  }

  lemma {:induction false} SelectAll(a: seq<string>, p: string)
    requires forall i :: 0 <= i < |a| ==> HasPrefix(a[i], p)
    ensures Select(a, p) == a
  {
    if a != [] {
      SelectAll(a[1..], p);
    }
  }

  lemma {:induction false} SelectNone(a: seq<string>, p: string)
    requires forall i :: 0 <= i < |a| ==> !HasPrefix(a[i], p)
    ensures Select(a, p) == []
  {
    if a != [] {
      SelectNone(a[1..], p);
    }
  }

  const AssertPrefix: string := "(assert ("

  /** The bound assertions of the input constraints, blank lines left out:
      for each row, upper then lower. */
  function BoundAssertions(bounds: seq<Bound>, fmt: real -> string): seq<string> {
    if bounds == [] then []
    else
      var n := |bounds| - 1;
      BoundAssertions(bounds[..n], fmt)
        + [UpperConstraint(n, fmt(bounds[n].upper)), LowerConstraint(n, fmt(bounds[n].lower))]
  }

  // Which prefixes each kind of line carries.

  lemma DeclareInputKind(i: nat)
    ensures HasPrefix(DeclareInput(i), InputPrefix)
    ensures !HasPrefix(DeclareInput(i), OutputPrefix) && !HasPrefix(DeclareInput(i), AssertPrefix)
    ensures !HasPrefix(DeclareInput(i), DisjunctPrefix)
  {
    var s := DeclareInput(i);
    assert s[0] == '(' && s[1] == 'd' && s[15] == 'X';
  }

  lemma DeclareOutputKind(i: nat)
    ensures HasPrefix(DeclareOutput(i), OutputPrefix)
    ensures !HasPrefix(DeclareOutput(i), InputPrefix) && !HasPrefix(DeclareOutput(i), AssertPrefix)
    ensures !HasPrefix(DeclareOutput(i), DisjunctPrefix)
  {
    var s := DeclareOutput(i);
    assert s[0] == '(' && s[1] == 'd' && s[15] == 'Y';
  }

  lemma ConstraintKind(i: nat, v: string)
    ensures HasPrefix(UpperConstraint(i, v), AssertPrefix) && HasPrefix(LowerConstraint(i, v), AssertPrefix)
    ensures !HasPrefix(UpperConstraint(i, v), InputPrefix) && !HasPrefix(LowerConstraint(i, v), InputPrefix)
    ensures !HasPrefix(UpperConstraint(i, v), OutputPrefix) && !HasPrefix(LowerConstraint(i, v), OutputPrefix)
    ensures !HasPrefix(UpperConstraint(i, v), DisjunctPrefix) && !HasPrefix(LowerConstraint(i, v), DisjunctPrefix)
  {
    var u, l := UpperConstraint(i, v), LowerConstraint(i, v);
    assert u[0] == '(' && u[1] == 'a' && l[0] == '(' && l[1] == 'a';
  }

  lemma DisjunctKind(t: int, trueLabel: int)
    ensures HasPrefix(Disjunct(t, trueLabel), DisjunctPrefix)
    ensures !HasPrefix(Disjunct(t, trueLabel), InputPrefix) && !HasPrefix(Disjunct(t, trueLabel), OutputPrefix)
    ensures !HasPrefix(Disjunct(t, trueLabel), AssertPrefix)
  {
    assert Disjunct(t, trueLabel)[0] == ' ';
  }

  /** The fixed lines (header, comments, blanks, the opening and closing of
      the disjunction) carry none of the prefixes, except that the opening
      `(assert (or` is an assertion. */
  lemma FixedLineKinds(trueLabel: int, p: string)
    requires p in {InputPrefix, OutputPrefix, AssertPrefix, DisjunctPrefix}
    ensures !HasPrefix(HeaderLine(trueLabel), p) && !HasPrefix("", p)
    ensures !HasPrefix("; Input constraints:", p) && !HasPrefix("; Output constraints:", p)
    ensures !HasPrefix("))", p)
    ensures HasPrefix("(assert (or", p) <==> p == AssertPrefix
  {
    assert HeaderLine(trueLabel)[0] == ';';
  }

  lemma FixedLines(trueLabel: int, p: string)
    requires p in {InputPrefix, OutputPrefix, AssertPrefix, DisjunctPrefix}
    ensures Select([HeaderLine(trueLabel)], p) == [] && Select([""], p) == []
    ensures Select(["; Input constraints:"], p) == [] && Select(["; Output constraints:"], p) == []
    ensures Select(["))"], p) == []
    ensures Select(["(assert (or"], p) == if p == AssertPrefix then ["(assert (or"] else []
  {
    FixedLineKinds(trueLabel, p);
    SelectOne(HeaderLine(trueLabel), p);
    SelectOne("", p);
    SelectOne("; Input constraints:", p);
    SelectOne("; Output constraints:", p);
    SelectOne("))", p);
    SelectOne("(assert (or", p);
  }

  /** Appending lines none of which is selected leaves the selection as it is. */
  lemma SelectAppendNone(a: seq<string>, b: seq<string>, p: string)
    requires Select(b, p) == []
    ensures Select(a + b, p) == Select(a, p)
  {
    SelectConcat(a, b, p);
    assert Select(a, p) + [] == Select(a, p);
  }

  /** Selecting by one of the four prefixes goes section by section: the
      fixed lines contribute nothing, except the opening `(assert (or` of
      the output assertion, which is an assertion. */
  lemma SelectSections(bounds: seq<Bound>, trueLabel: int, k: int, fmt: real -> string, p: string)
    requires p in {InputPrefix, OutputPrefix, AssertPrefix, DisjunctPrefix}
    ensures Select(PropertyLines(bounds, trueLabel, k, fmt), p)
      == Select(InputDeclarations(|bounds|), p) + Select(OutputDeclarations(k), p)
       + Select(InputConstraints(bounds, fmt), p)
       + (if p == AssertPrefix then ["(assert (or"] else [])
       + Select(Disjuncts(trueLabel, k), p)
  {
    FixedLines(trueLabel, p);
    var ins, outs := InputDeclarations(|bounds|), OutputDeclarations(k);
    var cons, dis := InputConstraints(bounds, fmt), Disjuncts(trueLabel, k);
    var sIn, sOut, sCons, sDis := Select(ins, p), Select(outs, p), Select(cons, p), Select(dis, p);
    var opening: seq<string> := if p == AssertPrefix then ["(assert (or"] else [];
    var l1 := [HeaderLine(trueLabel)] + [""];
    SelectAppendNone([HeaderLine(trueLabel)], [""], p);
    assert Select(l1, p) == [];
    var l2 := l1 + ins;
    SelectConcat(l1, ins, p);
    assert Select(l2, p) == sIn;
    var l3 := l2 + [""] + [""];
    SelectAppendNone(l2, [""], p);
    SelectAppendNone(l2 + [""], [""], p);
    assert Select(l3, p) == sIn;
    var l4 := l3 + outs;
    SelectConcat(l3, outs, p);
    assert Select(l4, p) == sIn + sOut;
    var l5 := l4 + [""] + ["; Input constraints:"];
    SelectAppendNone(l4, [""], p);
    SelectAppendNone(l4 + [""], ["; Input constraints:"], p);
    assert Select(l5, p) == sIn + sOut;
    var l6 := l5 + cons;
    SelectConcat(l5, cons, p);
    assert Select(l6, p) == sIn + sOut + sCons;
    var l7 := l6 + [""] + ["; Output constraints:"];
    SelectAppendNone(l6, [""], p);
    SelectAppendNone(l6 + [""], ["; Output constraints:"], p);
    assert Select(l7, p) == sIn + sOut + sCons;
    var l8 := l7 + ["(assert (or"];
    SelectConcat(l7, ["(assert (or"], p);
    assert Select(l8, p) == sIn + sOut + sCons + opening;
    var l9 := l8 + dis;
    SelectConcat(l8, dis, p);
    assert Select(l9, p) == sIn + sOut + sCons + opening + sDis;
    SelectAppendNone(l9, ["))"], p);
    assert l9 + ["))"] == PropertyLines(bounds, trueLabel, k, fmt);
  }

  lemma InputDeclarationsSelect(n: nat)
    ensures Select(InputDeclarations(n), InputPrefix) == InputDeclarations(n)
    ensures Select(InputDeclarations(n), OutputPrefix) == []
    ensures Select(InputDeclarations(n), AssertPrefix) == []
    ensures Select(InputDeclarations(n), DisjunctPrefix) == []
  {
    var xs := InputDeclarations(n);
    forall i | 0 <= i < n
      ensures HasPrefix(xs[i], InputPrefix) && !HasPrefix(xs[i], OutputPrefix)
      ensures !HasPrefix(xs[i], AssertPrefix) && !HasPrefix(xs[i], DisjunctPrefix)
    {
      DeclareInputKind(i);
    }
    SelectAll(xs, InputPrefix);
    SelectNone(xs, OutputPrefix);
    SelectNone(xs, AssertPrefix);
    SelectNone(xs, DisjunctPrefix);
  }

  lemma OutputDeclarationsSelect(k: int)
    ensures Select(OutputDeclarations(k), OutputPrefix) == OutputDeclarations(k)
    ensures Select(OutputDeclarations(k), InputPrefix) == []
    ensures Select(OutputDeclarations(k), AssertPrefix) == []
    ensures Select(OutputDeclarations(k), DisjunctPrefix) == []
  {
    var ys := OutputDeclarations(k);
    forall i | 0 <= i < |ys|
      ensures HasPrefix(ys[i], OutputPrefix) && !HasPrefix(ys[i], InputPrefix)
      ensures !HasPrefix(ys[i], AssertPrefix) && !HasPrefix(ys[i], DisjunctPrefix)
    {
      DeclareOutputKind(i);
    }
    SelectAll(ys, OutputPrefix);
    SelectNone(ys, InputPrefix);
    SelectNone(ys, AssertPrefix);
    SelectNone(ys, DisjunctPrefix);
  }

  lemma DisjunctsSelect(trueLabel: int, k: int)
    ensures Select(Disjuncts(trueLabel, k), DisjunctPrefix) == Disjuncts(trueLabel, k)
    ensures Select(Disjuncts(trueLabel, k), InputPrefix) == []
    ensures Select(Disjuncts(trueLabel, k), OutputPrefix) == []
    ensures Select(Disjuncts(trueLabel, k), AssertPrefix) == []
  {
    var ds, ts := Disjuncts(trueLabel, k), OtherClasses(trueLabel, k);
    forall j | 0 <= j < |ds|
      ensures HasPrefix(ds[j], DisjunctPrefix) && !HasPrefix(ds[j], InputPrefix)
      ensures !HasPrefix(ds[j], OutputPrefix) && !HasPrefix(ds[j], AssertPrefix)
    {
      DisjunctKind(ts[j], trueLabel);
    }
    SelectAll(ds, DisjunctPrefix);
    SelectNone(ds, InputPrefix);
    SelectNone(ds, OutputPrefix);
    SelectNone(ds, AssertPrefix);
  }

  lemma SelectThree(a: string, b: string, c: string, p: string)
    ensures Select([a, b, c], p) == Select([a], p) + Select([b], p) + Select([c], p)
  {
    assert [a, b, c][1..] == [b, c];
    assert [b, c][1..] == [c];
    assert [c][1..] == [];
  }

  /** The three lines written for one row. */
  lemma ConstraintLinesSelect(i: nat, vu: string, vl: string)
    ensures var lines := [UpperConstraint(i, vu), LowerConstraint(i, vl), ""];
      && Select(lines, AssertPrefix) == [UpperConstraint(i, vu), LowerConstraint(i, vl)]
      && Select(lines, InputPrefix) == [] && Select(lines, OutputPrefix) == []
      && Select(lines, DisjunctPrefix) == []
  {
    var u, l := UpperConstraint(i, vu), LowerConstraint(i, vl);
    ConstraintKind(i, vu);
    ConstraintKind(i, vl);
    assert !HasPrefix("", AssertPrefix) && !HasPrefix("", InputPrefix);
    assert !HasPrefix("", OutputPrefix) && !HasPrefix("", DisjunctPrefix);
    SelectThree(u, l, "", AssertPrefix);
    SelectThree(u, l, "", InputPrefix);
    SelectThree(u, l, "", OutputPrefix);
    SelectThree(u, l, "", DisjunctPrefix);
  }

  lemma {:induction false} InputConstraintsSelect(bounds: seq<Bound>, fmt: real -> string)
    ensures Select(InputConstraints(bounds, fmt), AssertPrefix) == BoundAssertions(bounds, fmt)
    ensures Select(InputConstraints(bounds, fmt), InputPrefix) == []
    ensures Select(InputConstraints(bounds, fmt), OutputPrefix) == []
    ensures Select(InputConstraints(bounds, fmt), DisjunctPrefix) == []
  {
    if bounds != [] {
      var n := |bounds| - 1;
      var u, l := UpperConstraint(n, fmt(bounds[n].upper)), LowerConstraint(n, fmt(bounds[n].lower));
      var front := InputConstraints(bounds[..n], fmt);
      InputConstraintsSelect(bounds[..n], fmt);
      ConstraintLinesSelect(n, fmt(bounds[n].upper), fmt(bounds[n].lower));
      SelectConcat(front, [u, l, ""], AssertPrefix);
      SelectConcat(front, [u, l, ""], InputPrefix);
      SelectConcat(front, [u, l, ""], OutputPrefix);
      SelectConcat(front, [u, l, ""], DisjunctPrefix);
    }
  }

  /** The file declares exactly the inputs X_0, ..., X_{N-1}, one per row of
      the bounds table, in ascending order, and no other X. */
  lemma DeclaredInputs(bounds: seq<Bound>, trueLabel: int, k: int, fmt: real -> string)
    ensures Select(PropertyLines(bounds, trueLabel, k, fmt), InputPrefix) == InputDeclarations(|bounds|)
  {
    var p := InputPrefix;
    SelectSections(bounds, trueLabel, k, fmt, p);
    assert Select(InputDeclarations(|bounds|), p) == InputDeclarations(|bounds|) by { InputDeclarationsSelect(|bounds|); }
    assert Select(OutputDeclarations(k), p) == [] by { OutputDeclarationsSelect(k); }
    assert Select(InputConstraints(bounds, fmt), p) == [] by { InputConstraintsSelect(bounds, fmt); }
    assert Select(Disjuncts(trueLabel, k), p) == [] by { DisjunctsSelect(trueLabel, k); }
  }

  /** The file declares exactly the outputs Y_0, ..., Y_{k-1}, in ascending order. */
  lemma DeclaredOutputs(bounds: seq<Bound>, trueLabel: int, k: int, fmt: real -> string)
    ensures Select(PropertyLines(bounds, trueLabel, k, fmt), OutputPrefix) == OutputDeclarations(k)
  {
    var p := OutputPrefix;
    SelectSections(bounds, trueLabel, k, fmt, p);
    assert Select(InputDeclarations(|bounds|), p) == [] by { InputDeclarationsSelect(|bounds|); }
    assert Select(OutputDeclarations(k), p) == OutputDeclarations(k) by { OutputDeclarationsSelect(k); }
    assert Select(InputConstraints(bounds, fmt), p) == [] by { InputConstraintsSelect(bounds, fmt); }
    assert Select(Disjuncts(trueLabel, k), p) == [] by { DisjunctsSelect(trueLabel, k); }
  }

  /** The assertions of the file are, in order, the upper and the lower bound
      of every row (row by row, upper first), then the single output
      assertion opened by `(assert (or`. */
  lemma Assertions(bounds: seq<Bound>, trueLabel: int, k: int, fmt: real -> string)
    ensures Select(PropertyLines(bounds, trueLabel, k, fmt), AssertPrefix)
              == BoundAssertions(bounds, fmt) + ["(assert (or"]
  {
    var p := AssertPrefix;
    SelectSections(bounds, trueLabel, k, fmt, p);
    assert Select(InputDeclarations(|bounds|), p) == [] by { InputDeclarationsSelect(|bounds|); }
    assert Select(OutputDeclarations(k), p) == [] by { OutputDeclarationsSelect(k); }
    assert Select(InputConstraints(bounds, fmt), p) == BoundAssertions(bounds, fmt) by { InputConstraintsSelect(bounds, fmt); }
    assert Select(Disjuncts(trueLabel, k), p) == [] by { DisjunctsSelect(trueLabel, k); }
    EmptySectionsDropOut(Select(PropertyLines(bounds, trueLabel, k, fmt), p),
                       Select(InputDeclarations(|bounds|), p), Select(OutputDeclarations(k), p),
                       Select(InputConstraints(bounds, fmt), p), ["(assert (or"], Select(Disjuncts(trueLabel, k), p));
  }

  /** Sections that select nothing drop out of the selection of the file. */
  lemma EmptySectionsDropOut(all: seq<string>, a: seq<string>, b: seq<string>, c: seq<string>, o: seq<string>, d: seq<string>)
    requires all == a + b + c + o + d && a == [] && b == [] && d == []
    ensures all == c + o
  {
    assert a + b + c + o + d == c + o;
  }

  /** The disjuncts of the output assertion are exactly one line per class
      other than the label, in ascending order. */
  lemma DisjunctLines(bounds: seq<Bound>, trueLabel: int, k: int, fmt: real -> string)
    ensures Select(PropertyLines(bounds, trueLabel, k, fmt), DisjunctPrefix) == Disjuncts(trueLabel, k)
  {
    var p := DisjunctPrefix;
    SelectSections(bounds, trueLabel, k, fmt, p);
    assert Select(InputDeclarations(|bounds|), p) == [] by { InputDeclarationsSelect(|bounds|); }
    assert Select(OutputDeclarations(k), p) == [] by { OutputDeclarationsSelect(k); }
    assert Select(InputConstraints(bounds, fmt), p) == [] by { InputConstraintsSelect(bounds, fmt); }
    assert Select(Disjuncts(trueLabel, k), p) == Disjuncts(trueLabel, k) by { DisjunctsSelect(trueLabel, k); }
  }

  /** The bound assertions are, for row i, the upper bound at 2i and the
      lower bound at 2i+1. */
  lemma {:induction false} BoundAssertionsAt(bounds: seq<Bound>, fmt: real -> string, i: nat)
    requires i < |bounds|
    ensures |BoundAssertions(bounds, fmt)| == 2 * |bounds|
    ensures BoundAssertions(bounds, fmt)[2 * i] == UpperConstraint(i, fmt(bounds[i].upper))
    ensures BoundAssertions(bounds, fmt)[2 * i + 1] == LowerConstraint(i, fmt(bounds[i].lower))
  {
    var n := |bounds| - 1;
    BoundAssertionsLength(bounds[..n], fmt);
    if i < n {
      BoundAssertionsAt(bounds[..n], fmt, i);
    }
  }

  lemma {:induction false} BoundAssertionsLength(bounds: seq<Bound>, fmt: real -> string)
    ensures |BoundAssertions(bounds, fmt)| == 2 * |bounds|
  {
    if bounds != [] {
      BoundAssertionsLength(bounds[..|bounds| - 1], fmt);
    }
  }

  /** When the label is one of the k classes there are exactly k-1 disjuncts. */
  lemma DisjunctCount(trueLabel: int, k: int)
    requires 0 <= trueLabel < k
    ensures |Disjuncts(trueLabel, k)| == k - 1
  {
    OtherClassesLength(trueLabel, k);
  }

  /** A common first part can be cancelled from a prefix test. */
  lemma CancelCommonPrefix(p: string, u: string, v: string)
    requires HasPrefix(p + u, p + v)
    ensures HasPrefix(u, v)
  {
    forall j | 0 <= j < |v| ensures u[j] == v[j] {
      assert (p + u)[|p| + j] == u[j];
      assert (p + v)[|p| + j] == v[j];
    }
  }

  /** A prefix test survives putting the same text in front of both sides. */
  lemma ExtendCommonPrefix(p: string, a: string, r: string, q: string)
    requires HasPrefix(r, q)
    ensures HasPrefix(p + (a + r), p + (a + q))
  {
    var u, v := p + (a + r), p + (a + q);
    forall j | 0 <= j < |v| ensures u[j] == v[j] {
      if j >= |p| + |a| {
        assert u[j] == r[j - |p| - |a|];
        assert v[j] == q[j - |p| - |a|];
      }
    }
  }

  /** Two digit strings, each followed by a text that starts with a
      non-digit, where the first text starts with the second: the digits agree. */
  lemma DigitsBeforeNonDigit(a: string, rest: string, b: string, q: string)
    requires AllDigits(a) && AllDigits(b)
    requires |rest| >= 1 && !IsDigit(rest[0]) && |q| >= 1 && !IsDigit(q[0])
    requires HasPrefix(a + rest, b + q)
    ensures a == b
  {
    var u := a + rest;
    assert u[..|b|] == b;
    assert u[|b|] == q[0];
    assert u == b + u[|b|..];
    DigitsPrefixUnique(a, rest, b, u[|b|..]);
  }

  lemma LeftIndexFromPrefix(t: nat, trueLabel: int, m: nat)
    requires HasPrefix(Disjunct(t, trueLabel), LeftOperand(m))
    ensures t == m
  {
    var rest := DisjunctRest(trueLabel);
    CancelCommonPrefix(DisjunctPrefix, NatStr(t) + rest, NatStr(m) + " ");
    assert rest[0] == ' ';
    DigitsBeforeNonDigit(NatStr(t), rest, NatStr(m), " ");
    NatStrInjective(t, m);
  }

  lemma DisjunctOwnPrefix(t: nat, trueLabel: int)
    ensures HasPrefix(Disjunct(t, trueLabel), LeftOperand(t))
  {
    assert DisjunctRest(trueLabel)[0] == ' ';
    ExtendCommonPrefix(DisjunctPrefix, IntStr(t), DisjunctRest(trueLabel), " ");
  }

  lemma NegativeNeverLeft(t: nat, trueLabel: int, m: int)
    requires m < 0
    ensures !HasPrefix(Disjunct(t, trueLabel), LeftOperand(m))
  {
    var n := |DisjunctPrefix|;
    assert Disjunct(t, trueLabel)[n] == NatStr(t)[0];
    assert LeftOperand(m)[n] == '-';
  }

  /** The left-hand output of a disjunct is readable from the line: the line
      for class t starts with `    (and (>= Y_m ` exactly when t == m. */
  lemma DisjunctLeftIndex(t: nat, trueLabel: int, m: int)
    ensures HasPrefix(Disjunct(t, trueLabel), LeftOperand(m)) <==> t == m
  {
    if t == m {
      DisjunctOwnPrefix(t, trueLabel);
    } else if m < 0 {
      NegativeNeverLeft(t, trueLabel, m);
    } else if HasPrefix(Disjunct(t, trueLabel), LeftOperand(m)) {
      LeftIndexFromPrefix(t, trueLabel, m);
    }
  }

  /** `Y_label` never stands on the left of a disjunct: no line of the file
      starts with `    (and (>= Y_label `. */
  lemma LabelNeverOnLeft(bounds: seq<Bound>, trueLabel: int, k: int, fmt: real -> string)
    ensures forall x :: x in PropertyLines(bounds, trueLabel, k, fmt) ==>
              !HasPrefix(x, LeftOperand(trueLabel))
  {
    var lines := PropertyLines(bounds, trueLabel, k, fmt);
    var q := LeftOperand(trueLabel);
    var ds, ts := Disjuncts(trueLabel, k), OtherClasses(trueLabel, k);
    DisjunctLines(bounds, trueLabel, k, fmt);
    forall x | x in lines ensures !HasPrefix(x, q) {
      if HasPrefix(x, q) {
        assert HasPrefix(x, DisjunctPrefix);
        SelectMember(lines, DisjunctPrefix, x);
        var j :| 0 <= j < |ds| && ds[j] == x;
        OtherClassesMembers(trueLabel, k, ts[j]);
        DisjunctLeftIndex(ts[j], trueLabel, trueLabel);
      }
    }
  }
}
