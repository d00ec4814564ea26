/** Finite sums over the values of a map whose keys are identifiers counted up from zero. */
module Sums {

  /** The value at `k`, with absent keys counting for nothing. */
  function At(w: map<nat, int>, k: nat): int {
    if k in w then w[k] else 0
  }

  /** The sum of the values stored under the keys below `n`, in increasing key order. */
  function Sum(w: map<nat, int>, n: nat): int {
    if n == 0 then 0 else Sum(w, n - 1) + At(w, n - 1)
  }

  /** Two maps that agree everywhere but at `k` have sums that differ by the change at `k`. */
  lemma {:induction false} SumChange(v: map<nat, int>, w: map<nat, int>, k: nat, n: nat)
    requires forall j: nat | j < n && j != k :: At(v, j) == At(w, j)
    ensures Sum(v, n) == Sum(w, n) + if k < n then At(v, k) - At(w, k) else 0
  {
    if n > 0 {
      SumChange(v, w, k, n - 1);
    }
  }

  /** The sum is additive. */
  lemma {:induction false} SumAdd(u: map<nat, int>, v: map<nat, int>, w: map<nat, int>, n: nat)
    requires forall j: nat | j < n :: At(u, j) == At(v, j) + At(w, j)
    ensures Sum(u, n) == Sum(v, n) + Sum(w, n)
  {
    if n > 0 {
      SumAdd(u, v, w, n - 1);
    }
  }

  /** The sum is monotone. */
  lemma {:induction false} SumMonotone(v: map<nat, int>, w: map<nat, int>, n: nat)
    requires forall j: nat | j < n :: At(v, j) <= At(w, j)
    ensures Sum(v, n) <= Sum(w, n)
  {
    if n > 0 {
      SumMonotone(v, w, n - 1);
    }
  }

  /** A map without keys in range adds up to nothing. */
  lemma {:induction false} SumZero(w: map<nat, int>, n: nat)
    requires forall j: nat | j < n :: At(w, j) == 0
    ensures Sum(w, n) == 0
  {
    if n > 0 {
      SumZero(w, n - 1);
    }
  }

  /** A sum whose only contribution comes from one key is that contribution. */
  lemma SumSingle(w: map<nat, int>, k: nat, n: nat)
    requires forall j: nat | j < n && j != k :: At(w, j) == 0
    requires k < n
    ensures Sum(w, n) == At(w, k)
  {
    SumChange(w, map[], k, n);
    SumZero(map[], n);
  }

  /** A sum of terms bounded by `bound` is bounded by `bound` times the number of keys. */
  lemma {:induction false} SumBounded(w: map<nat, int>, n: nat, bound: int)
    requires forall j | j in w :: -bound <= w[j] <= bound
    requires 0 <= bound
    ensures -Times(bound, |w|) <= Sum(w, n) <= Times(bound, |w|)
    decreases n
  {
    TimesPositive(bound, |w|);
    if n > 0 {
      if n - 1 in w {
        var rest := w - {n - 1};
        assert w.Keys == rest.Keys + {n - 1};
        assert |w| == |rest| + 1;
        SumBounded(rest, n - 1, bound);
        SumChange(w, rest, n - 1, n - 1);
      } else {
        SumBounded(w, n - 1, bound);
      }
    }
  }

  function Times(x: int, n: nat): int {
    if n == 0 then 0 else Times(x, n - 1) + x
  }

  lemma {:induction false} TimesPositive(x: int, n: nat)
    requires 0 <= x
    ensures 0 <= Times(x, n) == x * n
  {
    if n > 0 {
      TimesPositive(x, n - 1);
      assert x * n == x * (n - 1) + x;
    }
  }
}
