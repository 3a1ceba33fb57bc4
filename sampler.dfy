/** Reproducible sampling: `random.Random(seed).shuffle(queries)` followed
    by `queries[:sample_size]`. The shuffle is CPython's Fisher–Yates loop
    `for i in reversed(range(1, n)): j = randbelow(i + 1); swap x[i], x[j]`;
    the numbers the seeded generator hands to it are a parameter `draws`,
    with `draws[i]` the value `randbelow(i + 1)` returns at step `i`. */
module Sampler {
  import opened Wrappers
  import opened PyValues

  /** `draws` holds one value per step, each below its bound `i + 1`. */
  predicate ValidDraws(draws: seq<nat>, n: nat) {
    |draws| == n && forall i :: 1 <= i < n ==> draws[i] <= i
  }

  function Swap<T>(s: seq<T>, i: nat, j: nat): (r: seq<T>)
    requires i < |s| && j < |s|
    ensures |r| == |s| && r[i] == s[j] && r[j] == s[i]
    ensures forall k :: 0 <= k < |s| && k != i && k != j ==> r[k] == s[k]
  {
    s[i := s[j]][j := s[i]]
  }

  /** The list after the steps `i`, `i - 1`, ..., `1` of the loop. */
  function ShuffleDown<T>(s: seq<T>, draws: seq<nat>, i: nat): (r: seq<T>)
    requires i < |s| && ValidDraws(draws, |s|)
    ensures |r| == |s|
    decreases i
  {
    if i == 0 then s else ShuffleDown(Swap(s, i, draws[i]), draws, i - 1)
  }

  /** `random.shuffle` applied to `s`. */
  function Shuffled<T>(s: seq<T>, draws: seq<nat>): seq<T>
    requires ValidDraws(draws, |s|)
  {
    if |s| == 0 then s else ShuffleDown(s, draws, |s| - 1)
  }

  lemma SwapPermutes<T>(s: seq<T>, i: nat, j: nat)
    requires i < |s| && j < |s|
    ensures multiset(Swap(s, i, j)) == multiset(s)
  {
    if i != j {
      calc {
        multiset(Swap(s, i, j));
        multiset(s[i := s[j]][j := s[i]]);
        multiset(s[i := s[j]]) - multiset{s[i := s[j]][j]} + multiset{s[i]};
        multiset(s) - multiset{s[i]} + multiset{s[j]} - multiset{s[j]} + multiset{s[i]};
        multiset(s);
      }
    }
  }

  lemma {:induction false} ShuffleDownPermutes<T>(s: seq<T>, draws: seq<nat>, i: nat)
    requires i < |s| && ValidDraws(draws, |s|)
    ensures multiset(ShuffleDown(s, draws, i)) == multiset(s)
    decreases i
  {
    if i > 0 {
      SwapPermutes(s, i, draws[i]);
      ShuffleDownPermutes(Swap(s, i, draws[i]), draws, i - 1);
    }
  }

  /** The shuffle reorders the list: same length, same elements, same
      multiplicities. */
  lemma ShuffledPermutes<T>(s: seq<T>, draws: seq<nat>)
    requires ValidDraws(draws, |s|)
    ensures |Shuffled(s, draws)| == |s|
    ensures multiset(Shuffled(s, draws)) == multiset(s)
  {
    if |s| > 0 {
      ShuffleDownPermutes(s, draws, |s| - 1);
    }
  }

  /** `random.Random(seed).shuffle(a)`, in place. */
  method Shuffle<T>(a: array<T>, draws: seq<nat>)
    requires ValidDraws(draws, a.Length)
    modifies a
    ensures a[..] == Shuffled(old(a[..]), draws)
  {
    if a.Length == 0 {
      return;
    }
    var i := a.Length - 1;
    while i > 0
      invariant 0 <= i < a.Length
      invariant ShuffleDown(a[..], draws, i) == Shuffled(old(a[..]), draws)
      decreases i
    {
      var j := draws[i];
      ghost var before := a[..];
      a[i], a[j] := a[j], a[i];
      assert a[..] == Swap(before, i, j);
      i := i - 1;
    }
  }

  /** `if sample_size:` — `None` and `0` leave the list alone. */
  predicate Sampling(sampleSize: Option<int>) {
    sampleSize.Some? && sampleSize.value != 0
  }

  /** The queries `run_evaluation` goes on to evaluate. */
  function Sample<T>(s: seq<T>, sampleSize: Option<int>, draws: seq<nat>): seq<T>
    requires Sampling(sampleSize) ==> ValidDraws(draws, |s|)
  {
    if Sampling(sampleSize) then Take(Shuffled(s, draws), sampleSize.value) else s
  }

  /** Without a size the list is kept as it is. Otherwise the sample is drawn
      from a permutation of the input: it holds no element more often than
      the input does, and its length is `min(sample_size, n)` for a positive
      size (a negative size drops that many from the end). */
  lemma SampleFromPermutation<T>(s: seq<T>, sampleSize: Option<int>, draws: seq<nat>)
    requires Sampling(sampleSize) ==> ValidDraws(draws, |s|)
    ensures !Sampling(sampleSize) ==> Sample(s, sampleSize, draws) == s
    ensures multiset(Sample(s, sampleSize, draws)) <= multiset(s)
    ensures |Sample(s, sampleSize, draws)|
            == if Sampling(sampleSize) then PrefixLen(|s|, sampleSize.value) else |s|
  {
    if Sampling(sampleSize) {
      var t := Shuffled(s, draws);
      ShuffledPermutes(s, draws);
      var m := PrefixLen(|t|, sampleSize.value);
      assert t == t[..m] + t[m..];
      assert multiset(t) == multiset(t[..m]) + multiset(t[m..]);
    }
  }

  /** With a size at least the list's length the sample is the whole list,
      reordered. */
  lemma FullSampleIsPermutation<T>(s: seq<T>, size: int, draws: seq<nat>)
    requires size >= |s| && size != 0 && ValidDraws(draws, |s|)
    ensures multiset(Sample(s, Some(size), draws)) == multiset(s)
  {
    ShuffledPermutes(s, draws);
    assert Take(Shuffled(s, draws), size) == Shuffled(s, draws);
  }

  /** The sampling step of `run_evaluation`: shuffles the caller's list in
      place when a size is set and returns the kept prefix. */
  method SampleInPlace<T>(queries: array<T>, sampleSize: Option<int>, draws: seq<nat>)
    returns (sample: seq<T>)
    requires Sampling(sampleSize) ==> ValidDraws(draws, queries.Length)
    modifies queries
    ensures queries[..] == if Sampling(sampleSize) then Shuffled(old(queries[..]), draws)
                           else old(queries[..])
    ensures sample == Sample(old(queries[..]), sampleSize, draws)
  {
    if Sampling(sampleSize) {
      Shuffle(queries, draws);
      sample := Take(queries[..], sampleSize.value);
    } else {
      sample := queries[..];
    }
  }
}
