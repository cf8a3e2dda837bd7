/** The Central Limit Theorem demo: the fraction of heads in `n` fair coin
    flips, and the session's list of such sample means, which grows by a batch
    of `count` means at a time and is emptied on reset.

    `Math.random() < 0.5` is injected: draw `i` of a sample is the boolean
    `flips[i]`, true for heads. */
module Clt {
  import opened Numbers

  /** The number of heads among `flips`. */
  function Heads(flips: seq<bool>): (h: nat)
    ensures h <= |flips|
  {
    if flips == [] then 0
    else Heads(flips[..|flips| - 1]) + (if flips[|flips| - 1] then 1 else 0)
  }

  /** Heads agrees with an independent count: the multiplicity of `true`. */
  lemma {:induction false} HeadsIsMultiplicity(flips: seq<bool>)
    ensures Heads(flips) == multiset(flips)[true]
  {
    if flips != [] {
      var m := |flips| - 1;
      HeadsIsMultiplicity(flips[..m]);
      assert flips == flips[..m] + [flips[m]];
    }
  }

  /** The value `headsCount / n` that a sample of size `n` yields when the first
      `n` draws are `flips`: NaN for n = 0 (0/0), and 0 for a negative n, where
      no flip is made. */
  function FractionOfHeads(n: int, flips: seq<bool>): (r: Number)
    requires n <= |flips|
    ensures r.NaN? <==> n == 0
    ensures n > 0 ==> 0.0 <= r.value <= 1.0
    ensures n > 0 ==> r.value * n as real == Heads(flips[..n]) as real
  {
    if n == 0 then NaN
    else if n < 0 then Finite(0.0)
    else Finite(Heads(flips[..n]) as real / n as real)
  }

  /** simulateCoinFlipMean: counts the heads among the first `n` draws. */
  method CoinFlipMean(n: int, flips: seq<bool>) returns (r: Number)
    requires n <= |flips|
    ensures r == FractionOfHeads(n, flips)
    ensures n > 0 ==> r.Finite? && 0.0 <= r.value <= 1.0
  {
    var headsCount := 0;
    var i := 0;
    while i < n
      invariant 0 <= i <= |flips|
      invariant i <= (if n > 0 then n else 0)
      invariant 0 <= headsCount <= i
      invariant headsCount == Heads(flips[..i])
    {
      assert flips[..i + 1][..i] == flips[..i];
      if flips[i] {
        headsCount := headsCount + 1;
      }
      i := i + 1;
    }
    assert n > 0 ==> flips[..i] == flips[..n];
    r := if n == 0 then NaN else Finite(headsCount as real / n as real);
  }

  /** The sample means collected on the page (`sampleMeansCLT`). */
  class Session {
    var sampleMeans: seq<Number>

    constructor ()
      ensures sampleMeans == []
    {
      sampleMeans := [];
    }

    /** addSamplesCLT: appends `count` new means of samples of size `n`, the
        i-th drawn from `flips[i]`, and keeps the earlier means as a prefix. */
    method AddSamples(n: int, count: int, flips: seq<seq<bool>>)
      requires count <= |flips|
      requires forall i :: 0 <= i < count ==> n <= |flips[i]|
      modifies this
      ensures |sampleMeans| == |old(sampleMeans)| + (if count > 0 then count else 0)
      ensures sampleMeans[..|old(sampleMeans)|] == old(sampleMeans)
      ensures forall i :: 0 <= i < count ==>
                sampleMeans[|old(sampleMeans)| + i] == FractionOfHeads(n, flips[i])
    {
      ghost var before := sampleMeans;
      var i := 0;
      while i < count
        invariant 0 <= i <= (if count > 0 then count else 0)
        invariant |sampleMeans| == |before| + i
        invariant sampleMeans[..|before|] == before
        invariant forall j :: 0 <= j < i ==> sampleMeans[|before| + j] == FractionOfHeads(n, flips[j])
      {
        var mean := CoinFlipMean(n, flips[i]);
        sampleMeans := sampleMeans + [mean];
        i := i + 1;
      }
    }

    /** resetCLT: discards every sample mean. */
    method Reset()
      modifies this
      ensures sampleMeans == []
    {
      sampleMeans := [];
    }
  }
}
