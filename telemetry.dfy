/**
  Vocabulary shared by the four metric simulators: how a labelled series of the
  registry is read and written, the clamped random-walk step every gauge uses,
  and sums over the series of one instrument.

  The registry is a set of maps, one per instrument, from a label tuple to the
  series value.  A child series that was never written reads as 0, as a
  prometheus_client child does when it is first created by `.labels(...)`.
 */
module Telemetry {

  datatype Option<+T> = None | Some(value: T)

  /** The value of series `k`, or `absent` when the series was never written. */
  function Get<K, V>(m: map<K, V>, k: K, absent: V): V
  {
    if k in m then m[k] else absent
  }

  /** `counter.labels(k).inc(n)`. */
  function Inc<K(!new)>(m: map<K, int>, k: K, n: int): (r: map<K, int>)
    ensures k in r && Get(r, k, 0) == Get(m, k, 0) + n
    ensures forall k' :: k' != k ==> Get(r, k', 0) == Get(m, k', 0)
  {
    m[k := Get(m, k, 0) + n]
  }

  /** `histogram.labels(k).observe(x)`: the histogram keeps every observation. */
  function Observe<K(!new)>(h: map<K, seq<real>>, k: K, x: real): (r: map<K, seq<real>>)
    ensures Get(r, k, []) == Get(h, k, []) + [x]
    ensures forall k' :: k' != k ==> Get(r, k', []) == Get(h, k', [])
  {
    h[k := Get(h, k, []) + [x]]
  }

  /** Series `k` is the same in `m` as in `m0`: both absent, or both present with one value. */
  predicate Agree<K, V(==)>(m: map<K, V>, m0: map<K, V>, k: K)
  {
    (k in m <==> k in m0) && (k in m ==> m[k] == m0[k])
  }

  /** Every observation lies in [lo, hi]. */
  predicate AllWithin(xs: seq<real>, lo: real, hi: real)
  {
    forall i :: 0 <= i < |xs| ==> lo <= xs[i] <= hi
  }

  /** Observations appended to a histogram within [lo, hi] keep it within [lo, hi]. */
  lemma AllWithinConcat(xs: seq<real>, ys: seq<real>, lo: real, hi: real)
    requires AllWithin(xs, lo, hi) && AllWithin(ys, lo, hi)
    ensures AllWithin(xs + ys, lo, hi)
  {
    forall i | 0 <= i < |xs + ys| ensures lo <= (xs + ys)[i] <= hi {
      if i < |xs| {
        assert (xs + ys)[i] == xs[i];
      } else {
        assert (xs + ys)[i] == ys[i - |xs|];
      }
    }
  }

  /** A catalog lists each label value once. */
  predicate Distinct<T(==)>(s: seq<T>)
  {
    forall i :: 0 <= i < |s| ==> s[i] !in s[..i]
  }

  function Abs(x: real): real { if x < 0.0 then -x else x }

  function AbsInt(x: int): nat { if x < 0 then -x else x }

  function Max(a: real, b: real): real { if a >= b then a else b }

  function Min(a: real, b: real): real { if a <= b then a else b }

  function MaxInt(a: int, b: int): int { if a >= b then a else b }

  /** Python's `v or d` on a float read from a gauge: 0.0 is falsy. */
  function OrDefault(v: real, d: real): real
  {
    if v == 0.0 then d else v
  }

  /** `max(lo, min(hi, x))`. */
  function Clamp(lo: real, hi: real, x: real): (r: real)
    requires lo <= hi
    ensures lo <= r <= hi
    ensures lo <= x <= hi ==> r == x
    ensures x < lo ==> r == lo
    ensures hi < x ==> r == hi
  {
    Max(lo, Min(hi, x))
  }

  /**
    The bounded random-walk step: `max(lo, min(hi, (stored or start) + change))`.
    Its properties are stated by WalkWithin rather than as postconditions, so
    that a predicate naming many walks does not carry them all.
   */
  function Walk(stored: real, start: real, change: real, lo: real, hi: real): real
    requires lo <= hi
  {
    Clamp(lo, hi, OrDefault(stored, start) + change)
  }

  /**
    The walk never leaves [lo, hi]; from a stored value inside the bound it
    moves by at most |change|, and exactly by `change` when that stays inside;
    a stored 0 reads as `start`.
   */
  lemma WalkWithin(stored: real, start: real, change: real, lo: real, hi: real)
    requires lo <= hi
    ensures lo <= Walk(stored, start, change, lo, hi) <= hi
    ensures stored != 0.0 && lo <= stored <= hi ==> Abs(Walk(stored, start, change, lo, hi) - stored) <= Abs(change)
    ensures stored != 0.0 && lo <= stored + change <= hi ==> Walk(stored, start, change, lo, hi) == stored + change
    ensures stored == 0.0 ==> Walk(stored, start, change, lo, hi) == Clamp(lo, hi, start + change)
  {
  }

  /** The walk with only a lower bound: `max(lo, (stored or start) + change)`. */
  function WalkAbove(stored: real, start: real, change: real, lo: real): real
  {
    Max(lo, OrDefault(stored, start) + change)
  }

  /** As WalkWithin, for the walk with only a lower bound. */
  lemma WalkAboveWithin(stored: real, start: real, change: real, lo: real)
    ensures lo <= WalkAbove(stored, start, change, lo)
    ensures stored != 0.0 && lo <= stored ==> Abs(WalkAbove(stored, start, change, lo) - stored) <= Abs(change)
    ensures stored != 0.0 && lo <= stored + change ==> WalkAbove(stored, start, change, lo) == stored + change
    ensures stored == 0.0 ==> WalkAbove(stored, start, change, lo) == Max(lo, start + change)
  {
  }

  /**
    The integer count step `max(0, current + change)`.  (The `or 0` of the
    source maps 0 to 0, so it changes nothing here.)
   */
  function WalkCount(stored: int, change: int): (r: int)
    ensures r >= 0
    ensures stored >= 0 ==> AbsInt(r - stored) <= AbsInt(change)
    ensures stored + change >= 0 ==> r == stored + change
    ensures stored + change < 0 ==> r == 0
  {
    MaxInt(0, stored + change)
  }

  /** `sum(xs)` over a list of integers. */
  function Sum(xs: seq<int>): int
  {
    if xs == [] then 0 else xs[0] + Sum(xs[1..])
  }

  /** The row `a` of a counter labelled by pairs: the sum over the second labels `bs`. */
  function SumRow<A(==), B(==)>(m: map<(A, B), int>, a: A, bs: seq<B>): int
  {
    if bs == [] then 0 else Get(m, (a, bs[0]), 0) + SumRow(m, a, bs[1..])
  }

  /** A counter labelled by pairs, summed over the grid `as_` x `bs`. */
  function SumGrid<A(==), B(==)>(m: map<(A, B), int>, as_: seq<A>, bs: seq<B>): int
  {
    if as_ == [] then 0 else SumRow(m, as_[0], bs) + SumGrid(m, as_[1..], bs)
  }

  /** One increment of series (a0, b0) raises row a0 by 1 when b0 is in the catalog, and no other row. */
  lemma {:induction false} SumRowInc<A(!new), B(!new)>(m: map<(A, B), int>, a: A, bs: seq<B>, a0: A, b0: B)
    requires Distinct(bs)
    ensures SumRow(Inc(m, (a0, b0), 1), a, bs) == SumRow(m, a, bs) + (if a == a0 && b0 in bs then 1 else 0)
  {
    if bs != [] {
      assert Distinct(bs[1..]) by {
        forall i | 0 <= i < |bs[1..]| ensures bs[1..][i] !in bs[1..][..i] {
          assert bs[1..][..i] == bs[..i + 1][1..];
        }
      }
      SumRowInc(m, a, bs[1..], a0, b0);
      assert b0 in bs <==> b0 == bs[0] || b0 in bs[1..] by {
        assert bs == [bs[0]] + bs[1..];
      }
      if a == a0 && b0 == bs[0] {
        assert bs[0] !in bs[1..] by {
          forall i | 0 <= i < |bs[1..]| ensures bs[1..][i] != bs[0] {
            assert bs[1..][i] == bs[i + 1];
            assert bs[0] in bs[..i + 1];
          }
        }
      }
    }
  }

  /** One increment of a series inside the grid raises the grid sum by exactly 1. */
  lemma {:induction false} SumGridInc<A(!new), B(!new)>(m: map<(A, B), int>, as_: seq<A>, bs: seq<B>, a0: A, b0: B)
    requires Distinct(as_) && Distinct(bs)
    ensures SumGrid(Inc(m, (a0, b0), 1), as_, bs) == SumGrid(m, as_, bs) + (if a0 in as_ && b0 in bs then 1 else 0)
  {
    if as_ != [] {
      assert Distinct(as_[1..]) by {
        forall i | 0 <= i < |as_[1..]| ensures as_[1..][i] !in as_[1..][..i] {
          assert as_[1..][..i] == as_[..i + 1][1..];
        }
      }
      SumRowInc(m, as_[0], bs, a0, b0);
      SumGridInc(m, as_[1..], bs, a0, b0);
      assert a0 in as_ <==> a0 == as_[0] || a0 in as_[1..] by {
        assert as_ == [as_[0]] + as_[1..];
      }
      if a0 == as_[0] {
        assert as_[0] !in as_[1..] by {
          forall i | 0 <= i < |as_[1..]| ensures as_[1..][i] != as_[0] {
            assert as_[1..][i] == as_[i + 1];
            assert as_[0] in as_[..i + 1];
          }
        }
      }
    }
  }

  // ---------------------------------------------------------------------------
  // Loops over a label catalog
  //
  // A loop `for k in ks` is specified by what holds for the labels before the
  // loop index; `pos` gives each label its place in the catalog.

  /** `pos` numbers the catalog `ks`: every label has one place, and place j holds ks[j]. */
  ghost predicate Positions<K(!new)>(ks: seq<K>, pos: K -> nat)
  {
    && (forall k :: pos(k) < |ks| && ks[pos(k)] == k)
    && (forall j :: 0 <= j < |ks| ==> pos(ks[j]) == j)
  }

  /** A numbered catalog lists each label once. */
  lemma PositionsDistinct<K(!new)>(ks: seq<K>, pos: K -> nat)
    requires Positions(ks, pos)
    ensures Distinct(ks)
  {
    forall i | 0 <= i < |ks| ensures ks[i] !in ks[..i] {
      forall j | 0 <= j < i ensures ks[..i][j] != ks[i] {
        assert pos(ks[j]) == j && pos(ks[i]) == i;
      }
    }
  }

  /** Every series before place i holds the value `x` gives it. */
  ghost predicate SetUpTo<K(!new), V>(m: map<K, V>, x: map<K, V>, pos: K -> nat, i: nat)
  {
    forall k :: pos(k) < i ==> k in m && k in x && m[k] == x[k]
  }

  lemma SetUpToStep<K(!new), V>(m: map<K, V>, x: map<K, V>, ks: seq<K>, pos: K -> nat, i: nat)
    requires Positions(ks, pos) && i < |ks| && SetUpTo(m, x, pos, i) && ks[i] in x
    ensures SetUpTo(m[ks[i] := x[ks[i]]], x, pos, i + 1)
  {
  }

  /**
    Every gauge before place i took one bounded walk step from its value in
    `m0`, with the change `change` gives it; the others still read as in `m0`.
   */
  ghost predicate WalkedUpTo<K(!new)>(m: map<K, real>, m0: map<K, real>, change: map<K, real>,
                                     start: real, lo: real, hi: real, pos: K -> nat, i: nat)
    requires lo <= hi
  {
    forall k :: if pos(k) < i then k in m && m[k] == Walk(Get(m0, k, 0.0), start, Get(change, k, 0.0), lo, hi)
                else Get(m, k, 0.0) == Get(m0, k, 0.0)
  }

  lemma WalkedUpToStep<K(!new)>(m: map<K, real>, m0: map<K, real>, change: map<K, real>,
                                start: real, lo: real, hi: real, ks: seq<K>, pos: K -> nat, i: nat)
    requires lo <= hi && Positions(ks, pos) && i < |ks| && WalkedUpTo(m, m0, change, start, lo, hi, pos, i)
    ensures Get(m, ks[i], 0.0) == Get(m0, ks[i], 0.0)
    ensures WalkedUpTo(m[ks[i] := Walk(Get(m, ks[i], 0.0), start, Get(change, ks[i], 0.0), lo, hi)],
                       m0, change, start, lo, hi, pos, i + 1)
  {
  }

  /** Every counter before place i grew by the increment `inc` gives it; the others are as in `m0`. */
  ghost predicate IncreasedUpTo<K(!new)>(m: map<K, int>, m0: map<K, int>, inc: map<K, int>, pos: K -> nat, i: nat)
  {
    forall k :: Get(m, k, 0) == Get(m0, k, 0) + (if pos(k) < i then Get(inc, k, 0) else 0)
  }

  lemma IncreasedUpToStep<K(!new)>(m: map<K, int>, m0: map<K, int>, inc: map<K, int>, ks: seq<K>, pos: K -> nat, i: nat)
    requires Positions(ks, pos) && i < |ks| && IncreasedUpTo(m, m0, inc, pos, i)
    ensures IncreasedUpTo(Inc(m, ks[i], Get(inc, ks[i], 0)), m0, inc, pos, i + 1)
  {
  }

  /**
    A counter labelled by pairs, in a loop over the first label: every row
    before place i grew by the increments `inc` gives it; the others are as in `m0`.
   */
  ghost predicate RowsIncreasedUpTo<K(!new), L(!new)>(m: map<(K, L), int>, m0: map<(K, L), int>, inc: map<(K, L), int>,
                                                     pos: K -> nat, i: nat)
  {
    forall k, l :: Get(m, (k, l), 0) == Get(m0, (k, l), 0) + (if pos(k) < i then Get(inc, (k, l), 0) else 0)
  }

  /**
    A counter labelled by pairs, in a loop over the second label for the
    first label `a`: every series (a, l) with l before place j grew by its
    increment; the others are as in `m0`.
   */
  ghost predicate RowIncreasedUpTo<K(!new), L(!new)>(m: map<(K, L), int>, m0: map<(K, L), int>, a: K,
                                                    inc: map<(K, L), int>, pos: L -> nat, j: nat)
  {
    forall k, l :: Get(m, (k, l), 0) == Get(m0, (k, l), 0) + (if k == a && pos(l) < j then Get(inc, (k, l), 0) else 0)
  }

  lemma RowIncreasedUpToStep<K(!new), L(!new)>(m: map<(K, L), int>, m0: map<(K, L), int>, a: K,
                                               inc: map<(K, L), int>, ls: seq<L>, pos: L -> nat, j: nat)
    requires Positions(ls, pos) && j < |ls| && RowIncreasedUpTo(m, m0, a, inc, pos, j)
    ensures RowIncreasedUpTo(Inc(m, (a, ls[j]), Get(inc, (a, ls[j]), 0)), m0, a, inc, pos, j + 1)
  {
    var m' := Inc(m, (a, ls[j]), Get(inc, (a, ls[j]), 0));
    forall k, l ensures Get(m', (k, l), 0) == Get(m0, (k, l), 0) + (if k == a && pos(l) < j + 1 then Get(inc, (k, l), 0) else 0)
    {
      if k == a && l == ls[j] {
        assert pos(l) == j;
      } else {
        assert (k, l) != (a, ls[j]);
        if k == a {
          assert pos(l) != j;
        }
      }
    }
  }

  /** After the row of ks[i] grew by its increments, the rows up to place i + 1 have. */
  lemma RowsIncreasedUpToStep<K(!new), L(!new)>(m: map<(K, L), int>, m': map<(K, L), int>, m0: map<(K, L), int>,
                                                inc: map<(K, L), int>, ks: seq<K>, pos: K -> nat, i: nat)
    requires Positions(ks, pos) && i < |ks| && RowsIncreasedUpTo(m, m0, inc, pos, i)
    requires forall k, l :: Get(m', (k, l), 0) == Get(m, (k, l), 0) + (if k == ks[i] then Get(inc, (k, l), 0) else 0)
    ensures RowsIncreasedUpTo(m', m0, inc, pos, i + 1)
  {
  }

  /** Every histogram before place i received, in order, the observations `xs` gives it; the others are as in `h0`. */
  ghost predicate AppendedUpTo<K(!new)>(h: map<K, seq<real>>, h0: map<K, seq<real>>, xs: map<K, seq<real>>,
                                       pos: K -> nat, i: nat)
  {
    forall k :: Get(h, k, []) == Get(h0, k, []) + (if pos(k) < i then Get(xs, k, []) else [])
  }

  /** After the histogram of ks[i] received its observations, the histograms up to place i + 1 have. */
  lemma AppendedUpToStep<K(!new)>(h: map<K, seq<real>>, h': map<K, seq<real>>, h0: map<K, seq<real>>,
                                  xs: map<K, seq<real>>, ks: seq<K>, pos: K -> nat, i: nat)
    requires Positions(ks, pos) && i < |ks| && AppendedUpTo(h, h0, xs, pos, i)
    requires forall k :: Get(h', k, []) == Get(h, k, []) + (if k == ks[i] then Get(xs, ks[i], []) else [])
    ensures AppendedUpTo(h', h0, xs, pos, i + 1)
  {
    forall k ensures Get(h', k, []) == Get(h0, k, []) + (if pos(k) < i + 1 then Get(xs, k, []) else []) {
      if k == ks[i] {
        assert Get(h0, k, []) + Get(xs, k, []) == Get(h0, k, []) + [] + Get(xs, k, []);
      }
    }
  }

  /** Once a loop has passed the whole catalog, every series holds its value. */
  lemma SetAll<K(!new), V>(m: map<K, V>, x: map<K, V>, ks: seq<K>, pos: K -> nat)
    requires Positions(ks, pos) && SetUpTo(m, x, pos, |ks|)
    ensures forall k :: k in m && k in x && m[k] == x[k]
  {
    forall k ensures k in m && k in x && m[k] == x[k] {
      assert pos(k) < |ks|;
    }
  }

  /** Once a loop has passed the whole catalog, every counter grew by its increment. */
  lemma IncreasedAll<K(!new)>(m: map<K, int>, m0: map<K, int>, inc: map<K, int>, ks: seq<K>, pos: K -> nat)
    requires Positions(ks, pos) && IncreasedUpTo(m, m0, inc, pos, |ks|)
    ensures forall k :: Get(m, k, 0) == Get(m0, k, 0) + Get(inc, k, 0)
  {
    forall k ensures Get(m, k, 0) == Get(m0, k, 0) + Get(inc, k, 0) {
      assert pos(k) < |ks|;
    }
  }

  /** Once a loop has passed the whole catalog of first labels, every counter grew by its increment. */
  lemma RowsIncreasedAll<K(!new), L(!new)>(m: map<(K, L), int>, m0: map<(K, L), int>, inc: map<(K, L), int>,
                                           ks: seq<K>, pos: K -> nat)
    requires Positions(ks, pos) && RowsIncreasedUpTo(m, m0, inc, pos, |ks|)
    ensures forall k, l :: Get(m, (k, l), 0) == Get(m0, (k, l), 0) + Get(inc, (k, l), 0)
  {
    forall k, l ensures Get(m, (k, l), 0) == Get(m0, (k, l), 0) + Get(inc, (k, l), 0) {
      assert pos(k) < |ks|;
    }
  }

  /** Once a loop has passed the whole catalog, every histogram received its observations. */
  lemma AppendedAll<K(!new)>(h: map<K, seq<real>>, h0: map<K, seq<real>>, xs: map<K, seq<real>>, ks: seq<K>, pos: K -> nat)
    requires Positions(ks, pos) && AppendedUpTo(h, h0, xs, pos, |ks|)
    ensures forall k :: Get(h, k, []) == Get(h0, k, []) + Get(xs, k, [])
  {
    forall k ensures Get(h, k, []) == Get(h0, k, []) + Get(xs, k, []) {
      assert pos(k) < |ks|;
    }
  }

  /**
    `for x in xs: histogram.labels(k).observe(x)`: series `k` receives the
    observations in order, and no other series changes.
   */
  method ObserveAll<K(!new)>(h0: map<K, seq<real>>, k: K, xs: seq<real>) returns (h: map<K, seq<real>>)
    ensures forall k' :: Get(h, k', []) == Get(h0, k', []) + (if k' == k then xs else [])
  {
    h := h0;
    var j := 0;
    while j < |xs|
      invariant 0 <= j <= |xs|
      invariant forall k' :: Get(h, k', []) == Get(h0, k', []) + (if k' == k then xs[..j] else [])
    {
      assert xs[..j + 1] == xs[..j] + [xs[j]];
      h := Observe(h, k, xs[j]);
      j := j + 1;
    }
    assert xs[..j] == xs;
  }
}
