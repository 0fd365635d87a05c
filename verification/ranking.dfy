/** The ensemble that picks one reply among the generated candidates.
    Each ranker gives one score per candidate (the sigmoid of its logits,
    taken here as an input); the weighted scores are summed into one of two
    accumulators chosen by the ranker's tag, the accumulators are combined
    and the first candidate with the highest combined score wins. */
module Ranking {

  /** A configured ranker: its weight and its integer role tag. */
  datatype RankerSpec = RankerSpec(weight: real, tag: int)

  /** A ranker tagged 1 feeds `prior_results`; any other tag feeds
      `cond_results`. (The comment above the configuration names the roles
      the other way round. Under the fresh-score step `RoleSwapHarmless`
      shows that this does not matter; as written it does, since the tag
      decides whether a ranker is heard at all: `TagDecidesAsWritten`.) */
  predicate FeedsPrior(spec: RankerSpec) {
    spec.tag == 1
  }

  /** Some ranker feeds `prior_results`. */
  predicate HasPrior(specs: seq<RankerSpec>) {
    exists i :: 0 <= i < |specs| && FeedsPrior(specs[i])
  }

  /** Some ranker feeds `cond_results`. */
  predicate HasCond(specs: seq<RankerSpec>) {
    exists i :: 0 <= i < |specs| && !FeedsPrior(specs[i])
  }

  /** The two running totals and whether any ranker fed each. */
  datatype Accumulators = Accumulators(prior: seq<real>, cond: seq<real>, hasPrior: bool, hasCond: bool)

  /** One score vector per ranker, each with one score per candidate. */
  predicate WellShaped(scores: seq<seq<real>>, n: nat) {
    forall i :: 0 <= i < |scores| ==> |scores[i]| == n
  }

  predicate IsZero(v: seq<real>) {
    forall j :: 0 <= j < |v| ==> v[j] == 0.0
  }

  function Zeros(n: nat): (v: seq<real>)
    ensures |v| == n && IsZero(v)
  {
    seq(n, _ => 0.0)
  }

  /** `acc + w * v`, element by element. */
  function AddScaled(acc: seq<real>, w: real, v: seq<real>): (r: seq<real>)
    requires |acc| == |v|
    ensures |r| == |acc|
    ensures forall j :: 0 <= j < |r| ==> r[j] == acc[j] + w * v[j]
  {
    seq(|acc|, j requires 0 <= j < |acc| => acc[j] + w * v[j])
  }

  /** `a * b`, element by element. */
  function Mul(a: seq<real>, b: seq<real>): (r: seq<real>)
    requires |a| == |b|
    ensures |r| == |a|
    ensures forall j :: 0 <= j < |r| ==> r[j] == a[j] * b[j]
  {
    seq(|a|, j requires 0 <= j < |a| => a[j] * b[j])
  }

  function Start(n: nat): Accumulators {
    Accumulators(Zeros(n), Zeros(n), false, false)
  }

  // ---------------------------------------------------------------------
  // accumulation

  /** One pass of the ranker loop as written: the conditional branch adds
      the weight times the running total rather than the fresh score. */
  function StepAsWritten(acc: Accumulators, spec: RankerSpec, score: seq<real>): (r: Accumulators)
    requires |acc.prior| == |score| && |acc.cond| == |score|
    ensures |r.prior| == |score| && |r.cond| == |score|
  {
    if FeedsPrior(spec) then
      acc.(prior := AddScaled(acc.prior, spec.weight, score), hasPrior := true)
    else
      acc.(cond := AddScaled(acc.cond, spec.weight, acc.cond), hasCond := true)
  }

  /** Whatever the ranker and its scores, the as-written step leaves a
      zero conditional total at zero. */
  lemma StepAsWrittenKeepsZero(acc: Accumulators, spec: RankerSpec, score: seq<real>)
    requires |acc.prior| == |score| && |acc.cond| == |score|
    requires IsZero(acc.cond)
    ensures IsZero(StepAsWritten(acc, spec, score).cond)
  {
  }

  /** One pass of the ranker loop with the fresh score as the addend in
      both branches. */
  function Step(acc: Accumulators, spec: RankerSpec, score: seq<real>): (r: Accumulators)
    requires |acc.prior| == |score| && |acc.cond| == |score|
    ensures |r.prior| == |score| && |r.cond| == |score|
  {
    if FeedsPrior(spec) then
      acc.(prior := AddScaled(acc.prior, spec.weight, score), hasPrior := true)
    else
      acc.(cond := AddScaled(acc.cond, spec.weight, score), hasCond := true)
  }

  /** Reference for candidate `j`: the weighted sum of the scores of the
      rankers that feed `prior_results`. */
  function PriorSum(specs: seq<RankerSpec>, scores: seq<seq<real>>, n: nat, j: nat): real
    requires |scores| == |specs| && WellShaped(scores, n) && j < n
    decreases |specs|
  {
    if |specs| == 0 then 0.0
    else
      var k := |specs| - 1;
      PriorSum(specs[..k], scores[..k], n, j) + (if FeedsPrior(specs[k]) then specs[k].weight * scores[k][j] else 0.0)
  }

  /** Reference for candidate `j`: the weighted sum of the scores of the
      rankers that feed `cond_results`. */
  function CondSum(specs: seq<RankerSpec>, scores: seq<seq<real>>, n: nat, j: nat): real
    requires |scores| == |specs| && WellShaped(scores, n) && j < n
    decreases |specs|
  {
    if |specs| == 0 then 0.0
    else
      var k := |specs| - 1;
      CondSum(specs[..k], scores[..k], n, j) + (if FeedsPrior(specs[k]) then 0.0 else specs[k].weight * scores[k][j])
  }

  /** The ranker loop with the fresh-score step: each accumulator holds,
      per candidate, the weighted score sum of the rankers of its role, and
      its flag says whether any ranker of that role exists. */
  function Accumulate(specs: seq<RankerSpec>, scores: seq<seq<real>>, n: nat): (acc: Accumulators)
    requires |scores| == |specs| && WellShaped(scores, n)
    ensures |acc.prior| == n && |acc.cond| == n
    ensures acc.hasPrior == HasPrior(specs)
    ensures acc.hasCond == HasCond(specs)
    ensures forall j :: 0 <= j < n ==>
      acc.prior[j] == PriorSum(specs, scores, n, j) && acc.cond[j] == CondSum(specs, scores, n, j)
    decreases |specs|
  {
    if |specs| == 0 then Start(n)
    else
      var k := |specs| - 1;
      var acc := Accumulate(specs[..k], scores[..k], n);
      assert forall i :: 0 <= i < k ==> specs[..k][i] == specs[i];
      Step(acc, specs[k], scores[k])
  }

  /** The ranker loop as written: `prior_results` is as intended, but
      `cond_results` never leaves zero. */
  function AccumulateAsWritten(specs: seq<RankerSpec>, scores: seq<seq<real>>, n: nat): (acc: Accumulators)
    requires |scores| == |specs| && WellShaped(scores, n)
    ensures |acc.prior| == n && |acc.cond| == n
    ensures acc.hasPrior == HasPrior(specs)
    ensures acc.hasCond == HasCond(specs)
    ensures forall j :: 0 <= j < n ==> acc.prior[j] == PriorSum(specs, scores, n, j)
    ensures IsZero(acc.cond)
    decreases |specs|
  {
    if |specs| == 0 then Start(n)
    else
      var k := |specs| - 1;
      var acc := AccumulateAsWritten(specs[..k], scores[..k], n);
      assert forall i :: 0 <= i < k ==> specs[..k][i] == specs[i];
      StepAsWrittenKeepsZero(acc, specs[k], scores[k]);
      StepAsWritten(acc, specs[k], scores[k])
  }

  // ---------------------------------------------------------------------
  // combination and selection

  /** Lines 168-174: the product when both roles are present, otherwise
      whichever accumulator was fed, and `prior_results` when none was. */
  function Combine(acc: Accumulators): (total: seq<real>)
    requires |acc.prior| == |acc.cond|
    ensures |total| == |acc.prior|
  {
    if acc.hasCond && acc.hasPrior then Mul(acc.prior, acc.cond)
    else if acc.hasCond then acc.cond
    else acc.prior
  }

  /** The combined score of every candidate, in terms of the per-role
      reference sums: their product when rankers of both roles exist, the
      sum of the only role present otherwise. */
  function Total(specs: seq<RankerSpec>, scores: seq<seq<real>>, n: nat): (total: seq<real>)
    requires |scores| == |specs| && WellShaped(scores, n)
    ensures |total| == n
    ensures HasPrior(specs) && HasCond(specs) ==> forall j :: 0 <= j < n ==>
      total[j] == PriorSum(specs, scores, n, j) * CondSum(specs, scores, n, j)
    ensures !HasPrior(specs) && HasCond(specs) ==> forall j :: 0 <= j < n ==>
      total[j] == CondSum(specs, scores, n, j)
    ensures !HasCond(specs) ==> forall j :: 0 <= j < n ==>
      total[j] == PriorSum(specs, scores, n, j)
  {
    Combine(Accumulate(specs, scores, n))
  }

  /** `k` is the first index holding the maximum of `v`. */
  predicate IsFirstMax(v: seq<real>, k: nat) {
    && k < |v|
    && (forall j :: 0 <= j < |v| ==> v[j] <= v[k])
    && (forall j :: 0 <= j < k ==> v[j] < v[k])
  }

  /** `torch.argmax` of a vector: the first maximal index. */
  function ArgMax(v: seq<real>): (k: nat)
    requires |v| > 0
    ensures IsFirstMax(v, k)
    decreases |v|
  {
    if |v| == 1 then 0
    else
      var k := ArgMax(v[..|v| - 1]);
      if v[|v| - 1] > v[k] then |v| - 1 else k
  }

  /** A vector has only one first maximal index. */
  lemma FirstMaxUnique(v: seq<real>, k1: nat, k2: nat)
    requires IsFirstMax(v, k1) && IsFirstMax(v, k2)
    ensures k1 == k2
  {
    assert v[k1] <= v[k2] && v[k2] <= v[k1];
  }

  /** The outcome of the ranking block: the chosen index and how many
      rankers were run to get it. */
  datatype Selection = Selection(index: nat, rankersRun: nat)

  /** Lines 150-177 with the fresh-score step: a single candidate is
      taken without running any ranker; otherwise every ranker runs and
      the first candidate with the highest combined score wins. */
  function Select(specs: seq<RankerSpec>, scores: seq<seq<real>>, n: nat): (s: Selection)
    requires n >= 1
    requires n > 1 ==> |scores| == |specs| && WellShaped(scores, n)
    ensures s.index < n
    ensures n == 1 ==> s.index == 0 && s.rankersRun == 0
    ensures n > 1 ==> s.rankersRun == |specs| && IsFirstMax(Total(specs, scores, n), s.index)
  {
    if n > 1 then Selection(ArgMax(Total(specs, scores, n)), |specs|) else Selection(0, 0)
  }

  /** Lines 150-177 as written. */
  function SelectAsWritten(specs: seq<RankerSpec>, scores: seq<seq<real>>, n: nat): (s: Selection)
    requires n >= 1
    requires n > 1 ==> |scores| == |specs| && WellShaped(scores, n)
    ensures s.index < n
  {
    if n > 1 then Selection(ArgMax(Combine(AccumulateAsWritten(specs, scores, n))), |specs|) else Selection(0, 0)
  }

  /** An all-zero vector's first maximum is index 0. */
  lemma ArgMaxOfZero(v: seq<real>)
    requires |v| > 0 && IsZero(v)
    ensures ArgMax(v) == 0
  {
    var k := ArgMax(v);
    assert v[0] == v[k];
  }

  /** As written, a single ranker of the conditional role pins the choice
      to candidate 0, whatever the scores: the conditional total stays zero
      and either is the combined score or zeroes the product. */
  lemma AsWrittenConditionalForcesFirst(specs: seq<RankerSpec>, scores: seq<seq<real>>, n: nat)
    requires n > 1 && |scores| == |specs| && WellShaped(scores, n)
    requires HasCond(specs)
    ensures SelectAsWritten(specs, scores, n).index == 0
  {
    var acc := AccumulateAsWritten(specs, scores, n);
    var total := Combine(acc);
    assert IsZero(total);
    ArgMaxOfZero(total);
  }

  /** As written, the choice is the intended one when every ranker feeds
      `prior_results`. */
  lemma AsWrittenAgreesWithoutConditional(specs: seq<RankerSpec>, scores: seq<seq<real>>, n: nat)
    requires n >= 1
    requires n > 1 ==> |scores| == |specs| && WellShaped(scores, n)
    requires forall i :: 0 <= i < |specs| ==> FeedsPrior(specs[i])
    ensures SelectAsWritten(specs, scores, n) == Select(specs, scores, n)
  {
    if n > 1 {
      var a := AccumulateAsWritten(specs, scores, n);
      var b := Accumulate(specs, scores, n);
      assert a.prior == b.prior;
    }
  }

  /** The scores [0.2, 0.9, 0.9] under one conditional ranker of weight
      0.5: the intended rule picks candidate 1 (the first of the two best),
      the code as written picks candidate 0. */
  lemma ConditionalExample()
    ensures Select([RankerSpec(0.5, 0)], [[0.2, 0.9, 0.9]], 3).index == 1
    ensures SelectAsWritten([RankerSpec(0.5, 0)], [[0.2, 0.9, 0.9]], 3).index == 0
  {
    var specs := [RankerSpec(0.5, 0)];
    var scores := [[0.2, 0.9, 0.9]];
    assert !FeedsPrior(specs[0]);
    AsWrittenConditionalForcesFirst(specs, scores, 3);
    var total := Total(specs, scores, 3);
    assert specs[..0] == [] && scores[..0] == [];
    assert total[0] == 0.1 && total[1] == 0.45 && total[2] == 0.45;
    FirstMaxUnique(total, ArgMax(total), 1);
  }

  // ---------------------------------------------------------------------
  // the role tags

  /** The same ranker with its role exchanged. */
  function Flip(spec: RankerSpec): RankerSpec {
    RankerSpec(spec.weight, if FeedsPrior(spec) then 0 else 1)
  }

  function FlipAll(specs: seq<RankerSpec>): (r: seq<RankerSpec>)
    ensures |r| == |specs| && forall i :: 0 <= i < |specs| ==> r[i] == Flip(specs[i])
  {
    seq(|specs|, i requires 0 <= i < |specs| => Flip(specs[i]))
  }

  /** Exchanging every ranker's role exchanges the two reference sums. */
  lemma {:induction false} FlipSwapsSums(specs: seq<RankerSpec>, scores: seq<seq<real>>, n: nat, j: nat)
    requires |scores| == |specs| && WellShaped(scores, n) && j < n
    ensures PriorSum(FlipAll(specs), scores, n, j) == CondSum(specs, scores, n, j)
    ensures CondSum(FlipAll(specs), scores, n, j) == PriorSum(specs, scores, n, j)
    decreases |specs|
  {
    if |specs| > 0 {
      var k := |specs| - 1;
      assert FlipAll(specs)[..k] == FlipAll(specs[..k]);
      FlipSwapsSums(specs[..k], scores[..k], n, j);
    }
  }

  /** Exchanging every ranker's role exchanges which roles are present. */
  lemma FlipSwapsRoles(specs: seq<RankerSpec>)
    ensures HasPrior(FlipAll(specs)) == HasCond(specs)
    ensures HasCond(FlipAll(specs)) == HasPrior(specs)
  {
    var flipped := FlipAll(specs);
    if HasCond(specs) {
      var i :| 0 <= i < |specs| && !FeedsPrior(specs[i]);
      assert FeedsPrior(flipped[i]);
    }
    if HasPrior(specs) {
      var i :| 0 <= i < |specs| && FeedsPrior(specs[i]);
      assert !FeedsPrior(flipped[i]);
    }
    if HasPrior(flipped) {
      var i :| 0 <= i < |flipped| && FeedsPrior(flipped[i]);
      assert !FeedsPrior(specs[i]);
    }
    if HasCond(flipped) {
      var i :| 0 <= i < |flipped| && !FeedsPrior(flipped[i]);
      assert FeedsPrior(specs[i]);
    }
  }

  /** Exchanging every ranker's role leaves each candidate's combined
      score unchanged. */
  lemma RoleSwapHarmlessAt(specs: seq<RankerSpec>, scores: seq<seq<real>>, n: nat, j: nat)
    requires |scores| == |specs| && WellShaped(scores, n) && j < n
    ensures Total(FlipAll(specs), scores, n)[j] == Total(specs, scores, n)[j]
  {
    FlipSwapsRoles(specs);
    FlipSwapsSums(specs, scores, n, j);
    if |specs| == 0 {
      assert PriorSum(specs, scores, n, j) == 0.0 && CondSum(specs, scores, n, j) == 0.0;
    }
  }

  /** The combined score does not depend on which tag value denotes which
      role: exchanging every ranker's role leaves it unchanged. */
  lemma RoleSwapHarmless(specs: seq<RankerSpec>, scores: seq<seq<real>>, n: nat)
    requires |scores| == |specs| && WellShaped(scores, n)
    ensures Total(FlipAll(specs), scores, n) == Total(specs, scores, n)
  {
    forall j | 0 <= j < n
      ensures Total(FlipAll(specs), scores, n)[j] == Total(specs, scores, n)[j]
    {
      RoleSwapHarmlessAt(specs, scores, n, j);
    }
  }

  /** As written, the tag decides whether a ranker is heard: the same
      ranker on the same scores is ignored under tag 0 (candidate 0) and
      obeyed under tag 1 (candidate 1, the first of the two best). */
  lemma TagDecidesAsWritten()
    ensures SelectAsWritten([RankerSpec(0.5, 0)], [[0.2, 0.9, 0.9]], 3).index == 0
    ensures SelectAsWritten(FlipAll([RankerSpec(0.5, 0)]), [[0.2, 0.9, 0.9]], 3).index == 1
  {
    var specs := [RankerSpec(0.5, 0)];
    var scores := [[0.2, 0.9, 0.9]];
    ConditionalExample();
    var flipped := FlipAll(specs);
    assert FeedsPrior(flipped[0]);
    AsWrittenAgreesWithoutConditional(flipped, scores, 3);
    RoleSwapHarmless(specs, scores, 3);
  }
}
