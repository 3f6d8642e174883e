/**
 * The genetic-algorithm operators of the training batch.
 *
 * A gene is a vector of unsigned integers
 *   [raw feature size, fast period, slow - fast, signal period, band period]
 * that decodes to FeatureParams. Every random draw of the batch (an index,
 * a mask offset, a fresh value, a roulette border) is a parameter here: a raw
 * draw is reduced by `%` into the range `gen_range` is asked for.
 */
module Ga {
  import opened Common

  const FEATURE_SIZE_MIN: nat := 1
  const FEATURE_SIZE_MAX: nat := 10
  const MIN_VALUE: nat := 2
  /** Number of components of every gene the batch builds. */
  const GENE_LENGTH: nat := 5

  // ---------------------------------------------------------------------------
  // Decoding and encoding

  /** Wraps a raw value into [FEATURE_SIZE_MIN, FEATURE_SIZE_MAX). */
  function RoundForFeatureSize(v: nat): (r: nat)
    ensures FEATURE_SIZE_MIN <= r < FEATURE_SIZE_MAX
    ensures (r - FEATURE_SIZE_MIN) % (FEATURE_SIZE_MAX - FEATURE_SIZE_MIN)
         == v % (FEATURE_SIZE_MAX - FEATURE_SIZE_MIN)
  {
    v % (FEATURE_SIZE_MAX - FEATURE_SIZE_MIN) + FEATURE_SIZE_MIN
  }

  /** Decodes a gene's components into feature parameters. */
  function ToFeatureParams(values: seq<nat>): (p: FeatureParams)
    requires |values| >= GENE_LENGTH
    ensures FEATURE_SIZE_MIN <= p.featureSize < FEATURE_SIZE_MAX
    ensures p.slowPeriod - p.fastPeriod == values[2]
    ensures values[2] >= MIN_VALUE ==> p.slowPeriod >= p.fastPeriod + MIN_VALUE
  {
    FeatureParams(
      RoundForFeatureSize(values[0]),
      values[1],
      values[1] + values[2],
      values[3],
      values[4])
  }

  /** The components of `Gene::new(p)`: the slow period is stored as its distance to the fast one. */
  function NewValues(p: FeatureParams): (values: seq<nat>)
    requires p.fastPeriod <= p.slowPeriod
    ensures |values| == GENE_LENGTH
  {
    [p.featureSize, p.fastPeriod, p.slowPeriod - p.fastPeriod, p.signalPeriod, p.bbPeriod]
  }

  /**
   * Encoding then decoding keeps every period, but the feature size f comes
   * back wrapped as f % 9 + 1: the pair is a round trip only for the periods.
   */
  lemma NewThenDecode(p: FeatureParams)
    requires p.fastPeriod <= p.slowPeriod
    ensures ToFeatureParams(NewValues(p)) == p.(featureSize := RoundForFeatureSize(p.featureSize))
    ensures p.featureSize < FEATURE_SIZE_MAX - FEATURE_SIZE_MIN ==>
              ToFeatureParams(NewValues(p)).featureSize == p.featureSize + 1
  {
  }

  /** Decoding then re-encoding gives back every component but the first. */
  lemma DecodeThenNew(values: seq<nat>)
    requires |values| == GENE_LENGTH
    ensures NewValues(ToFeatureParams(values))[1..] == values[1..]
    ensures NewValues(ToFeatureParams(values))[0] == RoundForFeatureSize(values[0])
  {
  }

  // ---------------------------------------------------------------------------
  // Random draws

  /** `gen_value_random`: a draw reduced into [MIN_VALUE, forecastInputSize / 3]. */
  function GenValueRandom(forecastInputSize: nat, draw: nat): (v: nat)
    requires forecastInputSize / 3 >= MIN_VALUE
    ensures MIN_VALUE <= v <= forecastInputSize / 3
    ensures draw <= forecastInputSize / 3 - MIN_VALUE ==> v == MIN_VALUE + draw
  {
    MIN_VALUE + draw % (forecastInputSize / 3 - MIN_VALUE + 1)
  }

  /** `gen_range(0..len)`: a draw reduced into a valid index. */
  function GenIndexRandom(len: nat, draw: nat): (i: nat)
    requires len > 0
    ensures i < len
    ensures draw < len ==> i == draw
  {
    draw % len
  }

  /** The components of `new_random_gene`, one draw per component. */
  function NewRandomValues(forecastInputSize: nat, draws: seq<nat>): (values: seq<nat>)
    requires forecastInputSize / 3 >= MIN_VALUE
    requires |draws| == GENE_LENGTH
    ensures |values| == GENE_LENGTH
    ensures FEATURE_SIZE_MIN <= values[0] < FEATURE_SIZE_MAX
    ensures forall i :: 1 <= i < GENE_LENGTH ==> MIN_VALUE <= values[i] <= forecastInputSize / 3
  {
    [ RoundForFeatureSize(GenValueRandom(forecastInputSize, draws[0])),
      GenValueRandom(forecastInputSize, draws[1]),
      GenValueRandom(forecastInputSize, draws[2]),
      GenValueRandom(forecastInputSize, draws[3]),
      GenValueRandom(forecastInputSize, draws[4]) ]
  }

  /** A random gene always decodes to a slow period at least MIN_VALUE above the fast one. */
  lemma RandomGeneDecodes(forecastInputSize: nat, draws: seq<nat>)
    requires forecastInputSize / 3 >= MIN_VALUE
    requires |draws| == GENE_LENGTH
    ensures var p := ToFeatureParams(NewRandomValues(forecastInputSize, draws));
            p.slowPeriod >= p.fastPeriod + MIN_VALUE &&
            MIN_VALUE <= p.fastPeriod <= forecastInputSize / 3 &&
            FEATURE_SIZE_MIN <= p.featureSize < FEATURE_SIZE_MAX
  {
    var values := NewRandomValues(forecastInputSize, draws);
    assert 1 <= 2 < GENE_LENGTH;
    assert MIN_VALUE <= values[2];
    assert 1 <= 1 < GENE_LENGTH;
    assert MIN_VALUE <= values[1];
  }

  /** `select_gene_index_random`: a uniform index into a non-empty population. */
  function SelectGeneIndexRandom(genes: seq<Gene>, draw: nat): (i: nat)
    requires |genes| > 0
    ensures i < |genes|
    ensures draw < |genes| ==> i == draw
  {
    GenIndexRandom(|genes|, draw)
  }

  // ---------------------------------------------------------------------------
  // Mutation

  /** The components after `mutation`: one slot replaced by a fresh value. */
  function MutatedValues(values: seq<nat>, forecastInputSize: nat, indexDraw: nat, valueDraw: nat)
    : (r: seq<nat>)
    requires |values| > 0
    requires forecastInputSize / 3 >= MIN_VALUE
    ensures |r| == |values|
    ensures var i := GenIndexRandom(|values|, indexDraw);
            (forall j :: 0 <= j < |values| && j != i ==> r[j] == values[j]) &&
            MIN_VALUE <= r[i] <= forecastInputSize / 3
  {
    values[GenIndexRandom(|values|, indexDraw) := GenValueRandom(forecastInputSize, valueDraw)]
  }

  /** At most one component differs after a mutation. */
  lemma {:induction false} MutationChangesAtMostOne(
    values: seq<nat>, forecastInputSize: nat, indexDraw: nat, valueDraw: nat)
    requires |values| > 0
    requires forecastInputSize / 3 >= MIN_VALUE
    ensures var r := MutatedValues(values, forecastInputSize, indexDraw, valueDraw);
            |set j | 0 <= j < |values| && r[j] != values[j]| <= 1
  {
    var r := MutatedValues(values, forecastInputSize, indexDraw, valueDraw);
    var i := GenIndexRandom(|values|, indexDraw);
    var changed := set j | 0 <= j < |values| && r[j] != values[j];
    assert changed <= {i};
    SubsetCard(changed, {i});
  }

  lemma SubsetCard<T>(a: set<T>, b: set<T>)
    requires a <= b
    ensures |a| <= |b|
  {
    if a != {} {
      var x :| x in a;
      SubsetCard(a - {x}, b - {x});
    }
  }

  // ---------------------------------------------------------------------------
  // Crossover on the two bits selected by `mask = 3 << shift`, shift in {0, 1, 2}

  /** `1 << shift` */
  function MaskUnit(shift: nat): (u: nat)
    requires shift < 3
    ensures u == 1 || u == 2 || u == 4
  {
    if shift == 0 then 1 else if shift == 1 then 2 else 4
  }

  /** `(v & mask) >> shift`: the two bits of v under the mask, as a number in [0, 4). */
  function MaskedBits(v: nat, shift: nat): (b: nat)
    requires shift < 3
    ensures b < 4
  {
    if shift == 0 then v % 4 else if shift == 1 then v / 2 % 4 else v / 4 % 4
  }

  /** `v & !mask`: v with the two masked bits cleared. */
  function ClearMasked(v: nat, shift: nat): (r: nat)
    requires shift < 3
  {
    if shift == 0 then v / 4 * 4
    else if shift == 1 then v / 8 * 8 + v % 2
    else v / 16 * 16 + v % 4
  }

  /** `(v & !mask) | (w & mask)`: v with its masked bits taken from w. */
  function SwapMaskedBits(v: nat, w: nat, shift: nat): (r: nat)
    requires shift < 3
  {
    ClearMasked(v, shift) + MaskedBits(w, shift) * MaskUnit(shift)
  }

  /** v written as high * 4u + bits * u + low with u = 1 << shift: the three parts the mask separates. */
  lemma Decompose(v: nat, shift: nat) returns (high: nat, bits: nat, low: nat)
    requires shift < 3
    ensures bits == MaskedBits(v, shift) && low < MaskUnit(shift)
    ensures v == high * 4 * MaskUnit(shift) + bits * MaskUnit(shift) + low
    ensures ClearMasked(v, shift) == high * 4 * MaskUnit(shift) + low
  {
    if shift == 0 {
      high, bits, low := v / 4, v % 4, 0;
    } else if shift == 1 {
      var q := v / 2;
      high, bits, low := q / 4, q % 4, v % 2;
      assert v == 8 * high + 2 * bits + low;
      assert v / 8 == high;
    } else {
      var q := v / 4;
      high, bits, low := q / 4, q % 4, v % 4;
      assert v == 16 * high + 4 * bits + low;
      assert v / 16 == high;
    }
  }

  /** Reassembling a value from the three parts gives those parts back. */
  lemma Compose(high: nat, bits: nat, low: nat, shift: nat)
    requires shift < 3 && bits < 4 && low < MaskUnit(shift)
    ensures var v := high * 4 * MaskUnit(shift) + bits * MaskUnit(shift) + low;
            MaskedBits(v, shift) == bits && ClearMasked(v, shift) == high * 4 * MaskUnit(shift) + low
  {
    if shift == 0 {
      ComposeLow(high, bits);
    } else if shift == 1 {
      ComposeMiddle(high, bits, low);
    } else {
      ComposeHigh(high, bits, low);
    }
  }

  lemma ComposeLow(high: nat, bits: nat)
    requires bits < 4
    ensures (4 * high + bits) % 4 == bits && (4 * high + bits) / 4 == high
  {
  }

  lemma ComposeMiddle(high: nat, bits: nat, low: nat)
    requires bits < 4 && low < 2
    ensures var v := 8 * high + 2 * bits + low;
            v / 2 % 4 == bits && v / 8 == high && v % 2 == low
  {
    var v := 8 * high + 2 * bits + low;
    assert v / 2 == 4 * high + bits;
    assert v / 8 == high;
  }

  lemma ComposeHigh(high: nat, bits: nat, low: nat)
    requires bits < 4 && low < 4
    ensures var v := 16 * high + 4 * bits + low;
            v / 4 % 4 == bits && v / 16 == high && v % 4 == low
  {
    var v := 16 * high + 4 * bits + low;
    assert v / 4 == 4 * high + bits;
    assert v / 16 == high;
  }

  /** A value splits into its cleared part and its masked bits. */
  lemma MaskSplit(v: nat, shift: nat)
    requires shift < 3
    ensures v == ClearMasked(v, shift) + MaskedBits(v, shift) * MaskUnit(shift)
  {
    var high, bits, low := Decompose(v, shift);
  }

  /** The swapped value carries w's masked bits and keeps every other bit of v. */
  lemma SwapMaskedBitsSpec(v: nat, w: nat, shift: nat)
    requires shift < 3
    ensures MaskedBits(SwapMaskedBits(v, w, shift), shift) == MaskedBits(w, shift)
    ensures ClearMasked(SwapMaskedBits(v, w, shift), shift) == ClearMasked(v, shift)
  {
    var high, bits, low := Decompose(v, shift);
    var b := MaskedBits(w, shift);
    assert SwapMaskedBits(v, w, shift) == high * 4 * MaskUnit(shift) + b * MaskUnit(shift) + low;
    Compose(high, b, low, shift);
  }

  /** Exchanging the masked bits moves value between the two components but creates none. */
  lemma SwapMaskedBitsPreservesSum(v: nat, w: nat, shift: nat)
    requires shift < 3
    ensures SwapMaskedBits(v, w, shift) + SwapMaskedBits(w, v, shift) == v + w
  {
    MaskSplit(v, shift);
    MaskSplit(w, shift);
  }

  /** `max(min(x, max), MIN_VALUE)` */
  function Clamp(x: nat, max: nat): (r: nat)
    ensures r >= MIN_VALUE
    ensures max >= MIN_VALUE ==> r <= max
    ensures MIN_VALUE <= x <= max ==> r == x
  {
    var lowered := if x < max then x else max;
    if lowered > MIN_VALUE then lowered else MIN_VALUE
  }

  /** The components of both genes after `crossover`. */
  function CrossedValues(v1: seq<nat>, v2: seq<nat>, max: nat, indexDraw: nat, shiftDraw: nat)
    : (r: (seq<nat>, seq<nat>))
    requires 0 < |v1| <= |v2|
    ensures |r.0| == |v1| && |r.1| == |v2|
    ensures var i := GenIndexRandom(|v1|, indexDraw);
            (forall j :: 0 <= j < |v1| && j != i ==> r.0[j] == v1[j]) &&
            (forall j :: 0 <= j < |v2| && j != i ==> r.1[j] == v2[j])
    ensures var i := GenIndexRandom(|v1|, indexDraw);
            MIN_VALUE <= r.0[i] && MIN_VALUE <= r.1[i] &&
            (max >= MIN_VALUE ==> r.0[i] <= max && r.1[i] <= max)
  {
    var i := GenIndexRandom(|v1|, indexDraw);
    var shift := shiftDraw % 3;
    (v1[i := Clamp(SwapMaskedBits(v1[i], v2[i], shift), max)],
     v2[i := Clamp(SwapMaskedBits(v2[i], v1[i], shift), max)])
  }

  /**
   * When both exchanged values already lie in [MIN_VALUE, max] the clamp does
   * nothing, and the chosen components have traded exactly their masked bits.
   */
  lemma CrossoverExchangesMaskedBits(
    v1: seq<nat>, v2: seq<nat>, max: nat, indexDraw: nat, shiftDraw: nat)
    requires 0 < |v1| <= |v2|
    ensures var i := GenIndexRandom(|v1|, indexDraw);
            var shift := shiftDraw % 3;
            var s1 := SwapMaskedBits(v1[i], v2[i], shift);
            var s2 := SwapMaskedBits(v2[i], v1[i], shift);
            var r := CrossedValues(v1, v2, max, indexDraw, shiftDraw);
            MIN_VALUE <= s1 <= max && MIN_VALUE <= s2 <= max ==>
              MaskedBits(r.0[i], shift) == MaskedBits(v2[i], shift) &&
              MaskedBits(r.1[i], shift) == MaskedBits(v1[i], shift) &&
              ClearMasked(r.0[i], shift) == ClearMasked(v1[i], shift) &&
              ClearMasked(r.1[i], shift) == ClearMasked(v2[i], shift)
  {
    var i := GenIndexRandom(|v1|, indexDraw);
    var shift := shiftDraw % 3;
    SwapMaskedBitsSpec(v1[i], v2[i], shift);
    SwapMaskedBitsSpec(v2[i], v1[i], shift);
  }

  // ---------------------------------------------------------------------------
  // Average gene and similarity

  /** Sum of component i over the first k genes (a gene too short to have it adds 0). */
  function ColumnSum(vss: seq<seq<nat>>, i: nat, k: nat): (s: nat)
    requires k <= |vss|
  {
    if k == 0 then 0
    else ColumnSum(vss, i, k - 1) + (if i < |vss[k - 1]| then vss[k - 1][i] else 0)
  }

  /** Every gene of the population fits the totals vector, whose length is the population size. */
  ghost predicate FitsPopulation(vss: seq<seq<nat>>)
  {
    |vss| > 0 && forall j :: 0 <= j < |vss| ==> |vss[j]| <= |vss|
  }

  /**
   * The components of `make_average_gene`: one entry per GENE of the
   * population, entry i being the integer mean of component i.
   */
  function AverageValues(vss: seq<seq<nat>>): (avg: seq<nat>)
    requires FitsPopulation(vss)
    ensures |avg| == |vss|
    ensures forall i :: 0 <= i < |avg| ==>
              avg[i] * |vss| <= ColumnSum(vss, i, |vss|) < (avg[i] + 1) * |vss|
  {
    AverageBounds(vss);
    seq(|vss|, i requires 0 <= i < |vss| => ColumnSum(vss, i, |vss|) / |vss|)
  }

  lemma AverageBounds(vss: seq<seq<nat>>)
    requires |vss| > 0
    ensures forall i :: 0 <= i < |vss| ==>
              ColumnSum(vss, i, |vss|) / |vss| * |vss| <= ColumnSum(vss, i, |vss|)
                < (ColumnSum(vss, i, |vss|) / |vss| + 1) * |vss|
  {
    forall i | 0 <= i < |vss|
      ensures ColumnSum(vss, i, |vss|) / |vss| * |vss| <= ColumnSum(vss, i, |vss|)
                < (ColumnSum(vss, i, |vss|) / |vss| + 1) * |vss|
    {
      DivBounds(ColumnSum(vss, i, |vss|), |vss|);
    }
  }

  /** The quotient q of s by n satisfies q * n <= s < (q + 1) * n. */
  lemma DivBounds(s: nat, n: nat)
    requires n > 0
    ensures s / n * n <= s < (s / n + 1) * n
  {
    var q, r := s / n, s % n;
    assert s == q * n + r && r < n;
    assert (q + 1) * n == q * n + n;
  }

  lemma {:induction false} ColumnSumOfIdentical(vss: seq<seq<nat>>, g: seq<nat>, i: nat, k: nat)
    requires k <= |vss|
    requires forall j :: 0 <= j < |vss| ==> vss[j] == g
    ensures ColumnSum(vss, i, k) == if i < |g| then k * g[i] else 0
  {
    if k > 0 {
      ColumnSumOfIdentical(vss, g, i, k - 1);
    }
  }

  /** The average of identical genes is that gene, followed by zeros up to the population size. */
  lemma AverageOfIdentical(vss: seq<seq<nat>>, g: seq<nat>)
    requires FitsPopulation(vss)
    requires forall j :: 0 <= j < |vss| ==> vss[j] == g
    ensures |g| <= |AverageValues(vss)|
    ensures AverageValues(vss)[..|g|] == g
    ensures forall i :: |g| <= i < |vss| ==> AverageValues(vss)[i] == 0
  {
    var avg := AverageValues(vss);
    var n := |vss|;
    assert |g| == |vss[0]| <= n;
    forall i | 0 <= i < n
      ensures avg[i] == if i < |g| then g[i] else 0
    {
      ColumnSumOfIdentical(vss, g, i, n);
      if i < |g| {
        assert ColumnSum(vss, i, n) == n * g[i];
        assert avg[i] * n <= n * g[i] < (avg[i] + 1) * n;
        MulCancel(avg[i], g[i], n);
      }
    }
  }

  /** a * n <= b * n < (a + 1) * n forces a == b. */
  lemma MulCancel(a: nat, b: nat, n: nat)
    requires n > 0
    requires a * n <= n * b < (a + 1) * n
    ensures a == b
  {
    MulMono(a + 1, b, n);
    MulMono(b + 1, a, n);
  }

  lemma MulMono(x: nat, y: nat, n: nat)
    ensures x <= y ==> x * n <= y * n
  {
  }

  /** Squared Euclidean distance over the components of `a` (`b` may be longer). */
  function SquaredDistance(a: seq<nat>, b: seq<nat>): (d: nat)
    requires |a| <= |b|
  {
    if |a| == 0 then 0
    else SquaredDistance(a[..|a| - 1], b) + Square(a[|a| - 1] as int - b[|a| - 1])
  }

  function Square(x: int): (s: nat)
  {
    x * x
  }

  /** The distance is zero exactly when `a` agrees with the prefix of `b`. */
  lemma {:induction false} SquaredDistanceZeroIff(a: seq<nat>, b: seq<nat>)
    requires |a| <= |b|
    ensures SquaredDistance(a, b) == 0 <==> a == b[..|a|]
  {
    if |a| > 0 {
      var n := |a| - 1;
      SquaredDistanceZeroIff(a[..n], b);
      if a[n] != b[n] {
        assert Square(a[n] as int - b[n]) > 0;
      }
      if SquaredDistance(a, b) == 0 {
        assert a[..n] == b[..n];
        assert a == a[..n] + [a[n]];
        assert b[..|a|] == b[..n] + [b[n]];
      }
    }
  }

  /** Swapping the arguments does not change the distance of two equally long genes. */
  lemma {:induction false} SquaredDistanceSymmetric(a: seq<nat>, b: seq<nat>)
    requires |a| == |b|
    ensures SquaredDistance(a, b) == SquaredDistance(b, a)
  {
    if |a| > 0 {
      var n := |a| - 1;
      SquaredDistancePrefix(a[..n], b);
      SquaredDistancePrefix(b[..n], a);
      SquaredDistanceSymmetric(a[..n], b[..n]);
      assert Square(a[n] as int - b[n]) == Square(b[n] as int - a[n]);
    }
  }

  /** Only the first |a| components of b matter. */
  lemma {:induction false} SquaredDistancePrefix(a: seq<nat>, b: seq<nat>)
    requires |a| <= |b|
    ensures SquaredDistance(a, b) == SquaredDistance(a, b[..|a|])
  {
    if |a| > 0 {
      var n := |a| - 1;
      SquaredDistancePrefix(a[..n], b);
      SquaredDistancePrefix(a[..n], b[..|a|]);
      assert b[..|a|][..n] == b[..n];
    }
  }

  /** The components of a population of gene objects. */
  ghost function ValuesOf(genes: seq<Gene>): (vss: seq<seq<nat>>)
    reads genes
    ensures |vss| == |genes|
    ensures forall j :: 0 <= j < |genes| ==> vss[j] == genes[j].values
  {
    seq(|genes|, j reads genes requires 0 <= j < |genes| => genes[j].values)
  }

  /**
   * Diversity is zero exactly when the population is uniform: for genes of
   * one common length, every squared distance to the average gene is zero iff
   * all genes are equal.
   */
  lemma DiversityZeroIffIdentical(vss: seq<seq<nat>>)
    requires FitsPopulation(vss)
    requires forall j :: 0 <= j < |vss| ==> |vss[j]| == |vss[0]|
    ensures (forall j :: 0 <= j < |vss| ==> SquaredDistance(vss[j], AverageValues(vss)) == 0)
        <==> (forall j :: 0 <= j < |vss| ==> vss[j] == vss[0])
  {
    var avg := AverageValues(vss);
    var g := vss[0];
    if forall j :: 0 <= j < |vss| ==> SquaredDistance(vss[j], avg) == 0 {
      forall j | 0 <= j < |vss|
        ensures vss[j] == g
      {
        SquaredDistanceZeroIff(vss[j], avg);
        SquaredDistanceZeroIff(g, avg);
      }
    }
    if forall j :: 0 <= j < |vss| ==> vss[j] == g {
      AverageOfIdentical(vss, g);
      forall j | 0 <= j < |vss|
        ensures SquaredDistance(vss[j], avg) == 0
      {
        SquaredDistanceZeroIff(vss[j], avg);
      }
    }
  }

  // ---------------------------------------------------------------------------
  // Roulette selection (weights are model errors; the walk accumulates w / total
  // while total sums 1 - w, exactly as the batch does)

  /** Σ (1 - w) over the weights. */
  function ComplementSum(ws: seq<real>): real
  {
    if |ws| == 0 then 0.0 else ComplementSum(ws[..|ws| - 1]) + (1.0 - ws[|ws| - 1])
  }

  /** Σ w / total over the weights. */
  function ShareSum(ws: seq<real>, total: real): real
    requires total != 0.0
  {
    if |ws| == 0 then 0.0 else ShareSum(ws[..|ws| - 1], total) + ws[|ws| - 1] / total
  }

  /** The running sum has reached the border after weight i. */
  predicate Reached(ws: seq<real>, total: real, border: real, i: nat)
    requires total != 0.0
    requires i < |ws|
  {
    ShareSum(ws[..i + 1], total) >= border
  }

  // ---------------------------------------------------------------------------
  // The gene object

  class Gene {
    var values: seq<nat>

    /** `Gene::new`: encodes feature parameters (the slow period must not be below the fast one). */
    constructor New(p: FeatureParams)
      requires p.fastPeriod <= p.slowPeriod
      ensures values == NewValues(p)
    {
      values := [p.featureSize, p.fastPeriod, p.slowPeriod - p.fastPeriod, p.signalPeriod, p.bbPeriod];
    }

    /** `new_random_gene`, with its five draws given. */
    constructor NewRandomGene(forecastInputSize: nat, draws: seq<nat>)
      requires forecastInputSize / 3 >= MIN_VALUE
      requires |draws| == GENE_LENGTH
      ensures values == NewRandomValues(forecastInputSize, draws)
    {
      values := NewRandomValues(forecastInputSize, draws);
    }

    /** A gene built from given components. */
    constructor FromValues(vs: seq<nat>)
      ensures values == vs
    {
      values := vs;
    }

    /** `mutation`: replaces the component at a random index with a fresh random value. */
    method Mutation(forecastInputSize: nat, indexDraw: nat, valueDraw: nat)
      requires |values| > 0
      requires forecastInputSize / 3 >= MIN_VALUE
      modifies this
      ensures values == MutatedValues(old(values), forecastInputSize, indexDraw, valueDraw)
    {
      var index := GenIndexRandom(|values|, indexDraw);
      values := values[index := GenValueRandom(forecastInputSize, valueDraw)];
    }

    /**
     * `calc_similarity` before its square root: the squared distance between
     * this gene and `other` over this gene's components.
     */
    method CalcSimilarity(other: Gene) returns (distanceSquared: nat)
      requires |values| <= |other.values|
      ensures distanceSquared == SquaredDistance(values, other.values)
      ensures distanceSquared == 0 <==> values == other.values[..|values|]
    {
      distanceSquared := 0;
      for i := 0 to |values|
        invariant distanceSquared == SquaredDistance(values[..i], other.values)
      {
        var diff := values[i] as int - other.values[i];
        distanceSquared := distanceSquared + diff * diff;
        assert values[..i + 1][..i] == values[..i];
      }
      assert values[..|values|] == values;
      SquaredDistanceZeroIff(values, other.values);
    }

    /**
     * `crossover`: at one random index, the two genes exchange the two bits
     * under `3 << shift`, and each result is clamped into [MIN_VALUE, max].
     */
    static method Crossover(g1: Gene, g2: Gene, max: nat, indexDraw: nat, shiftDraw: nat)
      requires g1 != g2
      requires 0 < |g1.values| <= |g2.values|
      modifies g1, g2
      ensures (g1.values, g2.values)
           == CrossedValues(old(g1.values), old(g2.values), max, indexDraw, shiftDraw)
    {
      var index := GenIndexRandom(|g1.values|, indexDraw);
      var shift := shiftDraw % 3;

      var unit := MaskUnit(shift);

      var tmp1 := MaskedBits(g1.values[index], shift) * unit;
      var tmp2 := MaskedBits(g2.values[index], shift) * unit;

      var v1 := Clamp(ClearMasked(g1.values[index], shift) + tmp2, max);
      var v2 := Clamp(ClearMasked(g2.values[index], shift) + tmp1, max);
      g1.values := g1.values[index := v1];
      g2.values := g2.values[index := v2];
    }
  }

  /**
   * `make_average_gene`: fails on an empty population, otherwise returns the
   * gene of integer means (one entry per gene of the population).
   */
  method MakeAverageGene(genes: seq<Gene>) returns (r: Result<Gene, MyError>)
    requires forall j :: 0 <= j < |genes| ==> |genes[j].values| <= |genes|
    ensures r.Err? <==> |genes| == 0
    ensures r.Err? ==> r.error == ArrayIsEmpty("genes")
    ensures r.Ok? ==> FitsPopulation(ValuesOf(genes)) && r.value.values == AverageValues(ValuesOf(genes))
  {
    if |genes| == 0 {
      return Err(ArrayIsEmpty("genes"));
    }
    ghost var vss := ValuesOf(genes);
    var size := |genes|;
    var totals := new nat[size](_ => 0);
    for k := 0 to size
      invariant forall i :: 0 <= i < size ==> totals[i] == ColumnSum(vss, i, k)
    {
      var gene := genes[k];
      assert vss[k] == gene.values;
      for i := 0 to |gene.values|
        invariant forall i' :: 0 <= i' < i ==> totals[i'] == ColumnSum(vss, i', k + 1)
        invariant forall i' :: i <= i' < size ==> totals[i'] == ColumnSum(vss, i', k)
      {
        totals[i] := totals[i] + gene.values[i];
      }
      forall i' | |gene.values| <= i' < size
        ensures ColumnSum(vss, i', k + 1) == ColumnSum(vss, i', k)
      {
      }
    }
    var avg := seq(size, i reads totals requires 0 <= i < size => totals[i] / size);
    assert avg == AverageValues(vss);
    var g := new Gene.FromValues(avg);
    r := Ok(g);
  }

  /**
   * `calc_similarity_average` before the square roots and the float mean:
   * the squared distance of each gene to the average gene.
   */
  method CalcSimilarityAverage(genes: seq<Gene>) returns (r: Result<seq<nat>, MyError>)
    requires forall j :: 0 <= j < |genes| ==> |genes[j].values| <= |genes|
    ensures r.Err? <==> |genes| == 0
    ensures r.Ok? ==> FitsPopulation(ValuesOf(genes)) && |r.value| == |genes|
    ensures r.Ok? ==>
              forall j :: 0 <= j < |genes| ==>
                r.value[j] == SquaredDistance(genes[j].values, AverageValues(ValuesOf(genes)))
  {
    ghost var vss := ValuesOf(genes);
    var average := MakeAverageGene(genes);
    if average.Err? {
      return Err(average.error);
    }
    var avgGene := average.value;
    assert vss == ValuesOf(genes);
    ghost var avg := AverageValues(vss);
    assert avgGene.values == avg;
    var distances: seq<nat> := [];
    for j := 0 to |genes|
      invariant avgGene.values == avg
      invariant |distances| == j
      invariant forall j' :: 0 <= j' < j ==>
                  distances[j'] == SquaredDistance(genes[j'].values, avgGene.values)
    {
      var d := genes[j].CalcSimilarity(avgGene);
      distances := distances + [d];
    }
    r := Ok(distances);
  }

  /**
   * `select_index_roulette` with its border drawn: the first index at which the
   * running sum of w / Σ(1 - w) reaches the border, or 0 when none does.
   */
  method SelectIndexRoulette(weights: seq<real>, border: real) returns (index: nat)
    requires ComplementSum(weights) != 0.0
    ensures index == 0 || index < |weights|
    ensures var total := ComplementSum(weights);
            (exists i :: 0 <= i < |weights| && Reached(weights, total, border, i)) ==>
              index < |weights| &&
              Reached(weights, total, border, index) &&
              forall j :: 0 <= j < index ==> !Reached(weights, total, border, j)
    ensures var total := ComplementSum(weights);
            (forall i :: 0 <= i < |weights| ==> !Reached(weights, total, border, i)) ==>
              index == 0
  {
    var total := ComplementSum(weights);
    var sum := 0.0;
    index := 0;
    for i := 0 to |weights|
      invariant sum == ShareSum(weights[..i], total)
      invariant forall j :: 0 <= j < i ==> !Reached(weights, total, border, j)
      invariant index == 0
    {
      sum := sum + weights[i] / total;
      assert weights[..i + 1][..i] == weights[..i];
      assert sum == ShareSum(weights[..i + 1], total);
      if sum >= border {
        assert Reached(weights, total, border, i);
        index := i;
        return;
      }
    }
  }
}
