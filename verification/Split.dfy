/** Splitting a model's memory over GPUs (`splitProcessMiB`).  Weights are reals;
    the rounding errors of the quotients are a parameter. */
module Split {
  import opened Accounting
  import opened Text

  ghost function RealSum(s: seq<real>): real {
    if s == [] then 0.0 else RealSum(s[..|s| - 1]) + s[|s| - 1]
  }

  ghost function NatSum(s: seq<u64>): nat {
    if s == [] then 0 else NatSum(s[..|s| - 1]) + s[|s| - 1]
  }

  function Abs(x: real): real { if x < 0.0 then -x else x }

  /** Bytes rounded up to MiB. */
  function CeilMiB(bytes: u64): (r: u64)
    ensures (r - 1) * MIB < bytes <= r * MIB || (bytes == 0 && r == 0)
  {
    if bytes % MIB != 0 then bytes / MIB + 1 else bytes / MIB
  }

  /** A numeric target takes the tensor weight at its index if that is positive;
      everything else weighs 1. */
  function Weight(target: string, tensorSplit: seq<real>): (w: real)
    ensures w > 0.0
  {
    var index := Atoi(target);
    if index.Some? && 0 <= index.value < |tensorSplit| && tensorSplit[index.value] > 0.0
    then tensorSplit[index.value] else 1.0
  }

  ghost function Weights(targets: seq<string>, tensorSplit: seq<real>): (w: seq<real>)
    ensures |w| == |targets| && forall i :: 0 <= i < |w| ==> w[i] == Weight(targets[i], tensorSplit)
  {
    seq(|targets|, i requires 0 <= i < |targets| => Weight(targets[i], tensorSplit))
  }

  // ---------- which weight a target has ----------

  /** A number is given the entry of the tensor split at its place, if that is
      positive; past the end, or not positive, it weighs 1. */
  lemma NumberWeighs(k: int, tensorSplit: seq<real>)
    requires -MAX_INT - 1 <= k <= MAX_INT
    ensures Weight(Itoa(k), tensorSplit)
         == if 0 <= k < |tensorSplit| && tensorSplit[k] > 0.0 then tensorSplit[k] else 1.0
  {
    AtoiItoa(k);
  }

  /** A UUID, starting with a letter, weighs 1 whatever the tensor split. */
  lemma UuidWeighsOne(uuid: string, tensorSplit: seq<real>)
    requires uuid == "" || !(IsDigit(uuid[0]) || uuid[0] == '-' || uuid[0] == '+')
    ensures Weight(uuid, tensorSplit) == 1.0
  {
  }

  /** Targets named by number weigh what the tensor split has at those numbers. */
  lemma NumberedWeights(targets: seq<string>, at: seq<nat>, tensorSplit: seq<real>)
    requires AllNumbered(targets, at, tensorSplit)
    ensures Weights(targets, tensorSplit) == Entries(at, tensorSplit)
  {
    forall i | 0 <= i < |at| ensures Weight(targets[i], tensorSplit) == tensorSplit[at[i]] {
      NumberWeighs(at[i], tensorSplit);
    }
  }

  /** The targets are numbers at which the tensor split has positive entries. */
  ghost predicate AllNumbered(targets: seq<string>, at: seq<nat>, tensorSplit: seq<real>) {
    && |targets| == |at|
    && (forall i :: 0 <= i < |at| ==> at[i] < |tensorSplit| && at[i] <= MAX_INT && tensorSplit[at[i]] > 0.0)
    && forall i :: 0 <= i < |at| ==> targets[i] == Itoa(at[i])
  }

  function Entries(at: seq<nat>, tensorSplit: seq<real>): (w: seq<real>)
    requires forall i :: 0 <= i < |at| ==> at[i] < |tensorSplit|
    ensures |w| == |at| && forall i :: 0 <= i < |w| ==> w[i] == tensorSplit[at[i]]
  {
    seq(|at|, i requires 0 <= i < |at| => tensorSplit[at[i]])
  }

  /** The exact proportional share of one target. */
  function Share(total: nat, w: real, sum: real): real
    requires sum > 0.0
  {
    total as real * w / sum
  }

  ghost function Exact(total: nat, w: seq<real>): (x: seq<real>)
    requires RealSum(w) > 0.0
    ensures |x| == |w| && forall i :: 0 <= i < |w| ==> x[i] == Share(total, w[i], RealSum(w))
  {
    seq(|w|, i requires 0 <= i < |w| => Share(total, w[i], RealSum(w)))
  }

  ghost predicate Positive(w: seq<real>) {
    forall j :: 0 <= j < |w| ==> w[j] > 0.0
  }

  lemma {:induction false} PositiveSum(w: seq<real>)
    requires Positive(w) && w != []
    ensures RealSum(w) > 0.0
  {
    if |w| > 1 { PositiveSum(w[..|w| - 1]); }
    else { assert w[..0] == []; }
  }

  lemma ShareSplit(total: nat, a: real, b: real, sum: real)
    requires sum > 0.0
    ensures Share(total, a + b, sum) == Share(total, a, sum) + Share(total, b, sum)
    ensures Share(total, sum, sum) == total as real
    ensures b >= 0.0 ==> Share(total, b, sum) >= 0.0
  {
    var t := total as real;
    assert t * (a + b) / sum == t * a / sum + t * b / sum;
    assert t * sum / sum == t;
    if b >= 0.0 { assert t * b >= 0.0; }
  }

  lemma {:induction false} ExactPrefix(total: nat, w: seq<real>, k: nat)
    requires RealSum(w) > 0.0 && k <= |w|
    ensures RealSum(Exact(total, w)[..k]) == Share(total, RealSum(w[..k]), RealSum(w))
  {
    if k == 0 {
      assert Exact(total, w)[..k] == [] && w[..k] == [];
      ShareSplit(total, 0.0, 0.0, RealSum(w));
    } else {
      ExactPrefix(total, w, k - 1);
      assert Exact(total, w)[..k][..k - 1] == Exact(total, w)[..k - 1] && w[..k][..k - 1] == w[..k - 1];
      ShareSplit(total, RealSum(w[..k - 1]), w[k - 1], RealSum(w));
    }
  }

  /** The exact shares are non-negative and add up to the whole. */
  lemma ExactWhole(total: nat, w: seq<real>)
    requires Positive(w) && w != [] && RealSum(w) > 0.0
    ensures RealSum(Exact(total, w)) == total as real
    ensures forall i :: 0 <= i < |w| ==> Exact(total, w)[i] >= 0.0
  {
    ExactPrefix(total, w, |w|);
    assert w[..|w|] == w && Exact(total, w)[..|w|] == Exact(total, w);
    ShareSplit(total, 0.0, 0.0, RealSum(w));
    forall i | 0 <= i < |w| ensures Exact(total, w)[i] >= 0.0 {
      ShareSplit(total, 0.0, w[i], RealSum(w));
    }
  }

  ghost function AbsSum(s: seq<real>): real {
    if s == [] then 0.0 else AbsSum(s[..|s| - 1]) + Abs(s[|s| - 1])
  }

  lemma {:induction false} Prefixes(s: seq<real>, k: nat)
    requires k <= |s|
    ensures 0.0 <= AbsSum(s[..k]) <= AbsSum(s)
    ensures (forall i :: 0 <= i < |s| ==> s[i] >= 0.0) ==> RealSum(s[..k]) <= RealSum(s)
    decreases |s|
  {
    if s == [] {
      assert s[..k] == s;
    } else if k < |s| {
      Prefixes(s[..|s| - 1], k);
      assert s[..|s| - 1][..k] == s[..k];
    } else {
      assert s[..k] == s;
      Prefixes(s[..|s| - 1], k - 1);
    }
  }

  /** Rounding errors of the computed quotients: no quotient goes negative, and
      together they stay under one MiB. */
  ghost predicate SmallNoise(exact: seq<real>, noise: seq<real>) {
    && |noise| == |exact| && AbsSum(noise) < 1.0
    && forall i :: 0 <= i < |exact| ==> exact[i] + noise[i] >= 0.0
  }

  ghost predicate NoNoise(noise: seq<real>) {
    forall i :: 0 <= i < |noise| ==> noise[i] == 0.0
  }

  lemma {:induction false} NoNoiseSum(s: seq<real>)
    requires NoNoise(s)
    ensures AbsSum(s) == 0.0
  {
    if s != [] { NoNoiseSum(s[..|s| - 1]); }
  }

  /** The shares handed out so far: each alone, ... */
  ghost predicate Floors(exact: seq<real>, noise: seq<real>, amounts: seq<u64>) {
    && |amounts| <= |exact| == |noise|
    && forall i :: 0 <= i < |amounts| ==> amounts[i] == (exact[i] + noise[i]).Floor
  }

  lemma FloorsStep(exact: seq<real>, noise: seq<real>, amounts: seq<u64>, share: u64)
    requires Floors(exact, noise, amounts) && |amounts| < |exact|
    requires share == (exact[|amounts|] + noise[|amounts|]).Floor
    ensures Floors(exact, noise, amounts + [share])
  {
  }

  /** ... and all together. */
  ghost predicate Close(exact: seq<real>, noise: seq<real>, amounts: seq<u64>) {
    && |amounts| <= |exact| == |noise|
    && var k := |amounts|;
       Near(NatSum(amounts) as real, RealSum(exact[..k]), AbsSum(noise[..k]), k as real)
  }

  predicate Near(s: real, x: real, a: real, k: real) {
    x - a - k <= s <= x + a && (k > 0.0 ==> x - a - k < s)
  }

  lemma CloseArithmetic(s: real, x: real, a: real, k: real, share: real, e: real, n: real)
    requires Near(s, x, a, k) && share <= e + n < share + 1.0
    ensures Near(s + share, x + e, a + Abs(n), k + 1.0)
  {
  }

  lemma OneMore(exact: seq<real>, noise: seq<real>, amounts: seq<u64>, share: u64)
    requires |amounts| < |exact| == |noise|
    ensures var k := |amounts|;
            && RealSum(exact[..k + 1]) == RealSum(exact[..k]) + exact[k]
            && AbsSum(noise[..k + 1]) == AbsSum(noise[..k]) + Abs(noise[k])
    ensures NatSum(amounts + [share]) == NatSum(amounts) + share
  {
    var k, more := |amounts|, amounts + [share];
    assert exact[..k + 1][..k] == exact[..k] && noise[..k + 1][..k] == noise[..k] && more[..k] == amounts;
  }

  lemma CloseStep(exact: seq<real>, noise: seq<real>, amounts: seq<u64>, share: u64)
    requires Close(exact, noise, amounts) && |amounts| < |exact|
    requires share == (exact[|amounts|] + noise[|amounts|]).Floor
    ensures NatSum(amounts + [share]) == NatSum(amounts) + share
    ensures Close(exact, noise, amounts + [share])
  {
    var k := |amounts|;
    OneMore(exact, noise, amounts, share);
    CloseArithmetic(NatSum(amounts) as real, RealSum(exact[..k]), AbsSum(noise[..k]), k as real, share as real,
        exact[k], noise[k]);
    assert |amounts + [share]| as real == k as real + 1.0;
    assert NatSum(amounts + [share]) as real == NatSum(amounts) as real + share as real;
  }

  /** One more share fits under the total. */
  lemma ShareFits(total: u64, exact: seq<real>, noise: seq<real>, amounts: seq<u64>)
    requires Close(exact, noise, amounts) && SmallNoise(exact, noise) && |amounts| < |exact|
    requires RealSum(exact) == total as real && forall i :: 0 <= i < |exact| ==> exact[i] >= 0.0
    ensures var share := (exact[|amounts|] + noise[|amounts|]).Floor;
            0 <= share <= MAX64 && NatSum(amounts) + share <= total
  {
    var k := |amounts|;
    assert exact[..k + 1][..k] == exact[..k] && noise[..k + 1][..k] == noise[..k];
    Prefixes(exact, k + 1);
    Prefixes(noise, k + 1);
  }

  /** The proportions the split promises when nothing is rounded. */
  ghost predicate Proportional(exact: seq<real>, amounts: seq<u64>) {
    && |amounts| == |exact| > 0
    && var n := |amounts| - 1;
       && (forall i :: 0 <= i < n ==> amounts[i] as real <= exact[i])
       && amounts[n] as real >= exact[n]
       && (n > 0 ==> amounts[n] as real - exact[n] < n as real)
  }

  /** The remainder that the last target takes. */
  lemma LastShare(total: u64, exact: seq<real>, noise: seq<real>, amounts: seq<u64>, last: u64)
    requires Floors(exact, noise, amounts) && Close(exact, noise, amounts) && NoNoise(noise) && |amounts| == |exact| - 1
    requires RealSum(exact) == total as real && last == total - NatSum(amounts)
    ensures Proportional(exact, amounts + [last])
  {
    var n, all := |amounts|, amounts + [last];
    assert exact[..n + 1] == exact && exact[..n + 1][..n] == exact[..n];
    NoNoiseSum(noise[..n]);
    assert all[n] == last;
    assert last as real == total as real - NatSum(amounts) as real;
    forall i | 0 <= i < n ensures all[i] as real <= exact[i] {
      assert all[i] == amounts[i];
    }
  }

  /** The split: every share but the last is its exact proportion, off by its
      rounding error, rounded down; the last one takes what is left. */
  ghost predicate Shares(totalBytes: u64, targets: seq<string>, tensorSplit: seq<real>, noise: seq<real>,
                         amounts: seq<u64>) {
    var total, w := CeilMiB(totalBytes), Weights(targets, tensorSplit);
    && RealSum(w) > 0.0 && |amounts| == |targets| > 0 && NatSum(amounts) == total
    && Floors(Exact(total, w), noise, amounts[..|amounts| - 1])
  }

  // ---------- the split in terms of the tensor split ----------

  /** The floor of the total in the proportion of a part to the whole. */
  function Portion(total: nat, part: real, whole: real): (p: int)
    requires whole > 0.0
  {
    (total as real * part / whole).Floor
  }

  /** It is the largest number of MiB that the part is entitled to. */
  lemma PortionIs(total: nat, part: real, whole: real)
    requires whole > 0.0
    ensures var p := Portion(total, part, whole) as real; p * whole <= total as real * part < (p + 1.0) * whole
  {
    FloorScaled(total as real * part, whole);
  }

  lemma FloorScaled(a: real, c: real)
    requires c > 0.0
    ensures var p := (a / c).Floor as real; p * c <= a < (p + 1.0) * c
  {
    var x, p := a / c, (a / c).Floor as real;
    var above := p + 1.0;
    assert x * c == a && p <= x < above;
    Scaled(p, x, c);
    Scaled(x, above, c);
    assert a < above * c;
  }

  lemma Scaled(a: real, b: real, c: real)
    requires a <= b && c > 0.0
    ensures a * c <= b * c && (a < b ==> a * c < b * c)
  {
  }

  /** Each share but the last is its target's portion, and the last is the rest. */
  ghost predicate InProportion(total: nat, w: seq<real>, amounts: seq<u64>) {
    && |amounts| == |w| > 0 && RealSum(w) > 0.0 && NatSum(amounts) == total
    && forall i :: 0 <= i < |w| - 1 ==> amounts[i] == Portion(total, w[i], RealSum(w))
  }

  /** Without rounding errors a split over numbered targets goes by the tensor
      split's entries at those numbers, ... */
  lemma SharesByEntry(totalBytes: u64, targets: seq<string>, at: seq<nat>, tensorSplit: seq<real>, noise: seq<real>,
                      amounts: seq<u64>)
    requires AllNumbered(targets, at, tensorSplit)
    requires Shares(totalBytes, targets, tensorSplit, noise, amounts) && NoNoise(noise)
    ensures InProportion(CeilMiB(totalBytes), Entries(at, tensorSplit), amounts)
  {
    NumberedWeights(targets, at, tensorSplit);
    SharesProportional(totalBytes, targets, tensorSplit, noise, amounts);
  }

  /** ... so over targets 0 to n-1 it goes by the tensor split itself; ... */
  lemma SharesByTensorSplit(totalBytes: u64, targets: seq<string>, tensorSplit: seq<real>, noise: seq<real>,
                            amounts: seq<u64>)
    requires |targets| == |tensorSplit| <= MAX_INT && Positive(tensorSplit)
    requires forall i :: 0 <= i < |targets| ==> targets[i] == Itoa(i)
    requires Shares(totalBytes, targets, tensorSplit, noise, amounts) && NoNoise(noise)
    ensures InProportion(CeilMiB(totalBytes), tensorSplit, amounts)
  {
    var at := seq(|targets|, i requires 0 <= i < |targets| => i);
    SharesByEntry(totalBytes, targets, at, tensorSplit, noise, amounts);
    assert Entries(at, tensorSplit) == tensorSplit;
  }

  /** ... and with no tensor split given it is even: each target but the last has
      the same share, the n-th part rounded down. */
  lemma SharesEvenly(totalBytes: u64, targets: seq<string>, noise: seq<real>, amounts: seq<u64>)
    requires Shares(totalBytes, targets, [], noise, amounts) && NoNoise(noise)
    ensures |amounts| == |targets| > 0 && NatSum(amounts) == CeilMiB(totalBytes)
    ensures forall i :: 0 <= i < |targets| - 1 ==> amounts[i] == CeilMiB(totalBytes) / |targets|
  {
    var n, total := |targets|, CeilMiB(totalBytes);
    OnesSum(Weights(targets, []));
    SharesProportional(totalBytes, targets, [], noise, amounts);
    forall i | 0 <= i < n - 1 ensures amounts[i] == total / n {
      assert amounts[i] == Portion(total, 1.0, n as real);
      FloorQuotient(total, n);
    }
  }

  lemma SharesProportional(totalBytes: u64, targets: seq<string>, tensorSplit: seq<real>, noise: seq<real>,
                           amounts: seq<u64>)
    requires Shares(totalBytes, targets, tensorSplit, noise, amounts) && NoNoise(noise)
    ensures InProportion(CeilMiB(totalBytes), Weights(targets, tensorSplit), amounts)
  {
    var total, w := CeilMiB(totalBytes), Weights(targets, tensorSplit);
    forall i | 0 <= i < |w| - 1 ensures amounts[i] == Portion(total, w[i], RealSum(w)) {
      assert amounts[..|amounts| - 1][i] == amounts[i];
      ExactFloor(total, w[i], RealSum(w), Exact(total, w)[i], noise[i]);
    }
  }

  lemma ExactFloor(total: nat, part: real, whole: real, exact: real, noise: real)
    requires whole > 0.0 && exact == Share(total, part, whole) && noise == 0.0
    ensures (exact + noise).Floor == Portion(total, part, whole)
  {
  }

  lemma {:induction false} OnesSum(w: seq<real>)
    requires forall i :: 0 <= i < |w| ==> w[i] == 1.0
    ensures RealSum(w) == |w| as real
  {
    if w != [] { OnesSum(w[..|w| - 1]); }
  }

  lemma FloorQuotient(a: nat, n: nat)
    requires n > 0
    ensures Portion(a, 1.0, n as real) == a / n
  {
    var q, r := a / n, a % n;
    assert a as real == q as real * n as real + r as real;
    assert a as real / n as real == q as real + r as real / n as real;
    assert 0.0 <= r as real / n as real < 1.0;
  }

  /** Four GiB over two GPUs by 3 to 1. */
  lemma ThreeToOne(noise: seq<real>, amounts: seq<u64>)
    requires Shares(4096 * MIB, ["0", "1"], [3.0, 1.0], noise, amounts) && NoNoise(noise)
    ensures amounts == [3072, 1024]
  {
    var split := [3.0, 1.0];
    assert Itoa(0) == "0" && Itoa(1) == "1" && CeilMiB(4096 * MIB) == 4096;
    SharesByTensorSplit(4096 * MIB, ["0", "1"], split, noise, amounts);
    assert split[..1] == [3.0] && [3.0][..0] == [] && RealSum([3.0]) == 3.0 && RealSum(split) == 4.0;
    assert amounts[0] == Portion(4096, 3.0, 4.0) == 3072;
    assert amounts[..1] == [amounts[0]] && [amounts[0]][..0] == [] && NatSum([amounts[0]]) == amounts[0];
    assert NatSum(amounts) == amounts[0] + amounts[1];
  }

  /** The rounding errors of one split total under one MiB. */
  ghost predicate Tolerable(totalBytes: u64, targets: seq<string>, tensorSplit: seq<real>, noise: seq<real>) {
    targets != [] ==> RealSum(Weights(targets, tensorSplit)) > 0.0 ==>
      SmallNoise(Exact(CeilMiB(totalBytes), Weights(targets, tensorSplit)), noise)
  }

  /** The shares are as `Shares` tells, and so add up to the request rounded up to
      MiB, whatever the rounding errors, so long as they total under one MiB.  Without rounding errors no
      share but the last exceeds its exact proportion, and the last exceeds its
      own by less than one MiB per other target. */
  method SplitProcessMiB(totalBytes: u64, targets: seq<string>, tensorSplit: seq<real>, noise: seq<real>)
    returns (r: Result<seq<u64>>)
    requires Tolerable(totalBytes, targets, tensorSplit, noise)
    ensures r.Ok? <==> targets != []
    ensures r.Ok? ==> Shares(totalBytes, targets, tensorSplit, noise, r.value)
    ensures r.Ok? && NoNoise(noise) ==>
              && RealSum(Weights(targets, tensorSplit)) > 0.0
              && Proportional(Exact(CeilMiB(totalBytes), Weights(targets, tensorSplit)), r.value)
  {
    if |targets| == 0 { return Err(InvalidRequest); }
    ghost var w := Weights(targets, tensorSplit);
    var totalMiB: u64 := totalBytes / MIB;
    if totalBytes % MIB != 0 { totalMiB := totalMiB + 1; }
    assert totalMiB == CeilMiB(totalBytes);
    var weights, sum := SumWeights(targets, tensorSplit);
    PositiveSum(w);
    if sum <= 0.0 { return Err(InvalidRequest); }
    ghost var exact := Exact(totalMiB, w);
    ExactWhole(totalMiB, w);
    var amounts, handedOut := HandOut(totalMiB, weights, sum, noise);
    var last: u64 := totalMiB - handedOut;
    if NoNoise(noise) { LastShare(totalMiB, exact, noise, amounts, last); }
    assert (amounts + [last])[..|amounts|] == amounts;
    r := Ok(amounts + [last]);
    assert NoNoise(noise) ==> Proportional(Exact(CeilMiB(totalBytes), Weights(targets, tensorSplit)), r.value);
  }

  /** Every share but the last. */
  method HandOut(totalMiB: u64, weights: seq<real>, sum: real, noise: seq<real>)
    returns (amounts: seq<u64>, handedOut: u64)
    requires weights != [] && Positive(weights) && sum == RealSum(weights) > 0.0
    requires SmallNoise(Exact(totalMiB, weights), noise)
    ensures |amounts| == |weights| - 1 && handedOut == NatSum(amounts) <= totalMiB
    ensures Floors(Exact(totalMiB, weights), noise, amounts) && Close(Exact(totalMiB, weights), noise, amounts)
  {
    ghost var exact := Exact(totalMiB, weights);
    ExactWhole(totalMiB, weights);
    amounts, handedOut := [], 0;
    for i := 0 to |weights| - 1
      invariant |amounts| == i && handedOut == NatSum(amounts) <= totalMiB
      invariant Floors(exact, noise, amounts) && Close(exact, noise, amounts)
    {
      ShareFits(totalMiB, exact, noise, amounts);
      var share: u64 := (Share(totalMiB, weights[i], sum) + noise[i]).Floor;
      CloseStep(exact, noise, amounts, share);
      FloorsStep(exact, noise, amounts, share);
      amounts := amounts + [share];
      handedOut := handedOut + share;
    }
  }

  method SumWeights(targets: seq<string>, tensorSplit: seq<real>) returns (weights: seq<real>, sum: real)
    ensures weights == Weights(targets, tensorSplit) && sum == RealSum(weights)
  {
    weights, sum := [], 0.0;
    for i := 0 to |targets|
      invariant weights == Weights(targets, tensorSplit)[..i] && sum == RealSum(weights)
    {
      var weight := Weight(targets[i], tensorSplit);
      ghost var w := Weights(targets, tensorSplit);
      assert w[..i + 1] == w[..i] + [w[i]];
      assert (weights + [weight])[..i] == weights;
      weights := weights + [weight];
      sum := sum + weight;
    }
  }
}
