/** Which of a batch's materials the generator sees: all of them, or thirty spread evenly. */
module MaterialSampling {
  const MAX_MATERIALS := 30

  /** Index `i` of a sample of thirty among `total`. */
  function Sampled(total: int, i: int): int { i * (total - 1) / (MAX_MATERIALS - 1) }

  /** Two neighbouring gaps of a sample, each the width or one more. */
  lemma GapWidth(total: int, i: int)
    requires total > MAX_MATERIALS && i >= 0
    ensures var width := (total - 1) / (MAX_MATERIALS - 1);
            && width >= 1
            && width <= Sampled(total, i + 1) - Sampled(total, i) <= width + 1
  {
    var last := total - 1;
    var a := i * last;
    assert (i + 1) * last == a + last;
  }

  lemma {:induction false} Increasing(total: int, i: int, j: int)
    requires total > MAX_MATERIALS && 0 <= i < j
    ensures Sampled(total, i) < Sampled(total, j)
    decreases j
  {
    GapWidth(total, j - 1);
    if i < j - 1 {
      Increasing(total, i, j - 1);
    }
  }

  lemma Ends(total: int)
    requires total > MAX_MATERIALS
    ensures Sampled(total, 0) == 0 && Sampled(total, MAX_MATERIALS - 1) == total - 1
  {
    assert (MAX_MATERIALS - 1) * (total - 1) / (MAX_MATERIALS - 1) == total - 1;
  }

  /** A sample: in range, strictly increasing, of the right size, from the first to the last, and even. */
  ghost predicate EvenSample(total: int, indexes: seq<int>) {
    && |indexes| == (if total <= 0 then 0 else if total <= MAX_MATERIALS then total else MAX_MATERIALS)
    && (forall i :: 0 <= i < |indexes| ==> 0 <= indexes[i] < total)
    && (forall i, j :: 0 <= i < j < |indexes| ==> indexes[i] < indexes[j])
    && (indexes != [] ==> indexes[0] == 0 && indexes[|indexes| - 1] == total - 1)
    && (forall i, j :: 0 <= i < |indexes| - 1 && 0 <= j < |indexes| - 1 ==>
          (indexes[i + 1] - indexes[i]) - (indexes[j + 1] - indexes[j]) <= 1)
  }

  lemma SampleIsEven(total: int, indexes: seq<int>)
    requires total > MAX_MATERIALS && |indexes| == MAX_MATERIALS
    requires forall i :: 0 <= i < MAX_MATERIALS ==> indexes[i] == Sampled(total, i)
    ensures EvenSample(total, indexes)
  {
    hide Sampled;
    Ends(total);
    forall i, j | 0 <= i < j < |indexes| ensures indexes[i] < indexes[j] {
      Increasing(total, i, j);
    }
    forall i, j | 0 <= i < |indexes| - 1 && 0 <= j < |indexes| - 1
      ensures (indexes[i + 1] - indexes[i]) - (indexes[j + 1] - indexes[j]) <= 1
    {
      GapWidth(total, i);
      GapWidth(total, j);
    }
    forall i | 0 <= i < |indexes| ensures 0 <= indexes[i] < total {
      if i > 0 { Increasing(total, 0, i); }
      if i < MAX_MATERIALS - 1 { Increasing(total, i, MAX_MATERIALS - 1); }
    }
  }

  /** The quotient rounds down. */
  lemma SampledPlace(total: int, i: int)
    ensures 29 * Sampled(total, i) <= i * (total - 1) < 29 * (Sampled(total, i) + 1)
  {
  }

  /** Sample `i` of thirty lies at the proportional place, rounded down. */
  ghost predicate Proportional(total: int, indexes: seq<int>) {
    forall i :: 0 <= i < |indexes| ==> 29 * indexes[i] <= i * (total - 1) < 29 * (indexes[i] + 1)
  }

  lemma SampleIsProportional(total: int, indexes: seq<int>)
    requires |indexes| == MAX_MATERIALS && forall i :: 0 <= i < MAX_MATERIALS ==> indexes[i] == Sampled(total, i)
    ensures Proportional(total, indexes)
  {
    forall i | 0 <= i < |indexes| ensures 29 * indexes[i] <= i * (total - 1) < 29 * (indexes[i] + 1) {
      SampledPlace(total, i);
      hide Sampled;
    }
  }

  method SelectGuideMaterialIndexes(total: int) returns (indexes: seq<int>)
    ensures EvenSample(total, indexes)
    ensures total <= MAX_MATERIALS ==> forall i :: 0 <= i < |indexes| ==> indexes[i] == i
    ensures total > MAX_MATERIALS ==> Proportional(total, indexes)
  {
    hide Proportional;
    if total <= 0 {
      return [];
    }
    if total <= MAX_MATERIALS {
      var all := new int[total];
      for i := 0 to total
        invariant forall j :: 0 <= j < i ==> all[j] == j
      {
        all[i] := i;
      }
      return all[..];
    }
    var some := new int[MAX_MATERIALS];
    var last, denominator := total - 1, MAX_MATERIALS - 1;
    for i := 0 to MAX_MATERIALS
      invariant forall j :: 0 <= j < i ==> some[j] == Sampled(total, j)
    {
      some[i] := i * last / denominator;
    }
    indexes := some[..];
    hide EvenSample;
    SampleIsEven(total, indexes);
    SampleIsProportional(total, indexes);
  }
}
