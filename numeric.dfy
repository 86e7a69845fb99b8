/** Arithmetic over sequences shared by both strategy engines: sums through a
    projection, extremes, means, the Python slice `s[-n:]`, the bounded-history
    rule (append, then `pop(0)` once when over capacity), one-minute buckets and
    the confidence clamp. */
module Numeric {

  /** A value that may be absent, like Python's `None`. */
  datatype Option<T> = None | Some(value: T)

  /** Sum of `f` over `s`, accumulated from the back so that appending one
      element is a single unfolding. */
  function SumR<T>(s: seq<T>, f: T -> real): real
  {
    if s == [] then 0.0 else SumR(s[..|s| - 1], f) + f(s[|s| - 1])
  }

  function SumI<T>(s: seq<T>, f: T -> int): int
  {
    if s == [] then 0 else SumI(s[..|s| - 1], f) + f(s[|s| - 1])
  }

  lemma {:induction false} SumRAppend<T>(a: seq<T>, b: seq<T>, f: T -> real)
    ensures SumR(a + b, f) == SumR(a, f) + SumR(b, f)
    decreases |b|
  {
    if b != [] {
      assert (a + b)[..|a + b| - 1] == a + b[..|b| - 1];
      SumRAppend(a, b[..|b| - 1], f);
    } else {
      assert a + b == a;
    }
  }

  lemma {:induction false} SumIAppend<T>(a: seq<T>, b: seq<T>, f: T -> int)
    ensures SumI(a + b, f) == SumI(a, f) + SumI(b, f)
    decreases |b|
  {
    if b != [] {
      assert (a + b)[..|a + b| - 1] == a + b[..|b| - 1];
      SumIAppend(a, b[..|b| - 1], f);
    } else {
      assert a + b == a;
    }
  }

  /** Splitting a slice at any inner index splits its sum. */
  lemma SumISliceSplit<T>(s: seq<T>, i: nat, j: nat, k: nat, f: T -> int)
    requires i <= j <= k <= |s|
    ensures SumI(s[i..k], f) == SumI(s[i..j], f) + SumI(s[j..k], f)
  {
    assert s[i..k] == s[i..j] + s[j..k];
    SumIAppend(s[i..j], s[j..k], f);
  }

  /** Extending a slice by one element adds that element's term. */
  lemma SumISliceStep<T>(s: seq<T>, i: nat, j: nat, f: T -> int)
    requires i <= j < |s|
    ensures SumI(s[i..j + 1], f) == SumI(s[i..j], f) + f(s[j])
  {
    assert s[i..j + 1][..j - i] == s[i..j];
  }

  lemma {:induction false} SumRAtLeast<T>(s: seq<T>, f: T -> real, lo: real)
    requires forall k :: 0 <= k < |s| ==> lo <= f(s[k])
    ensures |s| as real * lo <= SumR(s, f)
  {
    if s != [] {
      var p := s[..|s| - 1];
      assert forall k :: 0 <= k < |p| ==> p[k] == s[k];
      SumRAtLeast(p, f, lo);
    }
  }

  /** A sum of terms that all lie in [lo, hi] lies in [n*lo, n*hi]. */
  lemma {:induction false} SumRBounds<T>(s: seq<T>, f: T -> real, lo: real, hi: real)
    requires forall k :: 0 <= k < |s| ==> lo <= f(s[k]) <= hi
    ensures |s| as real * lo <= SumR(s, f) <= |s| as real * hi
  {
    if s != [] {
      var p := s[..|s| - 1];
      assert forall k :: 0 <= k < |p| ==> p[k] == s[k];
      SumRBounds(p, f, lo, hi);
    }
  }

  /** One term of a weighted sum: its value is its price times its
      non-negative weight, and its price lies in [lo, hi]. */
  predicate WeightedTerm<T>(x: T, price: T -> real, weight: T -> int, value: T -> real, lo: real, hi: real)
  {
    value(x) == price(x) * weight(x) as real && lo <= price(x) <= hi && weight(x) >= 0
  }

  /** A weighted sum `sum(price(x) * weight(x))` with non-negative weights
      and every price in [lo, hi] lies between lo and hi times the total
      weight: the core of every volume-weighted average. */
  lemma {:induction false} WeightedSumBounds<T>(s: seq<T>, price: T -> real, weight: T -> int,
                                                value: T -> real, lo: real, hi: real)
    requires forall k :: 0 <= k < |s| ==> WeightedTerm(s[k], price, weight, value, lo, hi)
    ensures SumI(s, weight) as real * lo <= SumR(s, value) <= SumI(s, weight) as real * hi
  {
    if s != [] {
      var p := s[..|s| - 1];
      assert forall k :: 0 <= k < |p| ==> p[k] == s[k];
      WeightedSumBounds(p, price, weight, value, lo, hi);
      WeightedSumLast(s, price, weight, value, lo, hi);
    }
  }

  /** The inductive step of WeightedSumBounds: the bound on all but the
      last term, and the last term, give the bound on the whole sum. */
  lemma WeightedSumLast<T>(s: seq<T>, price: T -> real, weight: T -> int,
                           value: T -> real, lo: real, hi: real)
    requires s != [] && WeightedTerm(s[|s| - 1], price, weight, value, lo, hi)
    requires var p := s[..|s| - 1];
      SumI(p, weight) as real * lo <= SumR(p, value) <= SumI(p, weight) as real * hi
    ensures SumI(s, weight) as real * lo <= SumR(s, value) <= SumI(s, weight) as real * hi
  {
    var p := s[..|s| - 1];
    var x := s[|s| - 1];
    var q := weight(x) as real;
    var total := SumI(s, weight) as real;
    assert total == SumI(p, weight) as real + q;
    assert SumR(s, value) == SumR(p, value) + price(x) * q;
    WeightedStep(SumI(p, weight) as real, SumR(p, value), q, total, price(x), lo, hi);
  }

  /** Adding one term `px * q` with lo <= px <= hi and q >= 0 to a sum
      bounded by w*lo and w*hi keeps it bounded by the new total weight
      times lo and hi. */
  lemma WeightedStep(w: real, v: real, q: real, total: real, px: real, lo: real, hi: real)
    requires w * lo <= v <= w * hi && q >= 0.0 && lo <= px <= hi && total == w + q
    ensures total * lo <= v + px * q <= total * hi
  {
    assert (px - lo) * q >= 0.0;
    assert (hi - px) * q >= 0.0;
    assert total * lo == w * lo + q * lo;
    assert total * hi == w * hi + q * hi;
  }

  lemma {:induction false} SumINonNegative<T>(s: seq<T>, f: T -> int)
    requires forall k :: 0 <= k < |s| ==> f(s[k]) >= 0
    ensures SumI(s, f) >= 0
  {
    if s != [] {
      var p := s[..|s| - 1];
      assert forall k :: 0 <= k < |p| ==> p[k] == s[k];
      SumINonNegative(p, f);
    }
  }

  /** Python's `max(f(x) for x in s)`. */
  function MaxR<T>(s: seq<T>, f: T -> real): (r: real)
    requires |s| > 0
    ensures forall k :: 0 <= k < |s| ==> f(s[k]) <= r
    ensures exists k :: 0 <= k < |s| && f(s[k]) == r
  {
    if |s| == 1 then f(s[0])
    else
      var m := MaxR(s[..|s| - 1], f);
      assert forall k :: 0 <= k < |s| - 1 ==> s[..|s| - 1][k] == s[k];
      if f(s[|s| - 1]) > m then f(s[|s| - 1]) else m
  }

  /** Python's `min(f(x) for x in s)`. */
  function MinR<T>(s: seq<T>, f: T -> real): (r: real)
    requires |s| > 0
    ensures forall k :: 0 <= k < |s| ==> r <= f(s[k])
    ensures exists k :: 0 <= k < |s| && f(s[k]) == r
  {
    if |s| == 1 then f(s[0])
    else
      var m := MinR(s[..|s| - 1], f);
      assert forall k :: 0 <= k < |s| - 1 ==> s[..|s| - 1][k] == s[k];
      if f(s[|s| - 1]) < m then f(s[|s| - 1]) else m
  }

  /** `sum(f(x) for x in s) / len(s)`; it lies between the extremes. */
  function MeanR<T>(s: seq<T>, f: T -> real): (r: real)
    requires |s| > 0
    ensures MinR(s, f) <= r <= MaxR(s, f)
  {
    SumRBounds(s, f, MinR(s, f), MaxR(s, f));
    DivBetween(SumR(s, f), |s| as real, MinR(s, f), MaxR(s, f));
    SumR(s, f) / |s| as real
  }

  /** Dividing n*lo <= x <= n*hi by a positive n. */
  lemma DivBetween(x: real, n: real, lo: real, hi: real)
    requires n > 0.0 && n * lo <= x <= n * hi
    ensures lo <= x / n <= hi
  {
    var q := x / n;
    assert q * n == x;
    assert (q - lo) * n >= 0.0 && (hi - q) * n >= 0.0;
  }

  /** Dividing n*lo <= x by a positive n. */
  lemma DivAtLeast(x: real, n: real, lo: real)
    requires n > 0.0 && n * lo <= x
    ensures lo <= x / n
  {
    var q := x / n;
    assert q * n == x;
    assert (q - lo) * n >= 0.0;
  }

  /** Python's slice `s[-n:]` for n > 0: the last n elements, or all of s. */
  function LastN<T>(s: seq<T>, n: nat): (r: seq<T>)
    requires n > 0
    ensures |r| == if |s| < n then |s| else n
    ensures r == s[|s| - |r|..]
  {
    if |s| < n then s else s[|s| - n..]
  }

  /** Appending to a list capped at `cap`: the caller appends, then one
      `pop(0)` runs when the length exceeds the cap. */
  function Evict<T>(s: seq<T>, cap: nat): (r: seq<T>)
    requires |s| > 0
    ensures |s| <= cap + 1 ==> |r| <= cap
    ensures |s| - 1 <= |r| <= |s|
    ensures cap > 0 ==> |r| > 0
    ensures r == s[|s| - |r|..]
    ensures |r| > 0 ==> r[|r| - 1] == s[|s| - 1]
  {
    if |s| > cap then s[1..] else s
  }

  /** Appending one element under a positive cap: the element becomes the
      last one, and the oldest is dropped only when the cap is exceeded. */
  lemma EvictAppend<T>(s: seq<T>, x: T, cap: nat)
    requires cap > 0
    ensures var r := Evict(s + [x], cap);
      |r| > 0 && r[|r| - 1] == x
      && r[..|r| - 1] == (if |s| + 1 > cap then s[1..] else s)
  {
    var t := s + [x];
    assert t[..|t| - 1] == s;
    if |t| > cap {
      assert t[1..][..|t| - 2] == s[1..];
    }
  }

  /** A loop that applies `step` to each element in turn, from `init`. */
  function Fold<S, X>(init: S, xs: seq<X>, step: (S, X) -> S): S
  {
    if xs == [] then init else step(Fold(init, xs[..|xs| - 1], step), xs[|xs| - 1])
  }

  /** Folding over two parts is folding over the whole. */
  lemma {:induction false} FoldAppend<S, X>(init: S, a: seq<X>, b: seq<X>, step: (S, X) -> S)
    ensures Fold(init, a + b, step) == Fold(Fold(init, a, step), b, step)
  {
    if b == [] {
      assert a + b == a;
    } else {
      FoldAppend(init, a, b[..|b| - 1], step);
      assert (a + b)[..|a + b| - 1] == a + b[..|b| - 1];
    }
  }

  /** One more element: the fold over a prefix one longer is one more step. */
  lemma FoldStep<S, X>(init: S, xs: seq<X>, i: nat, step: (S, X) -> S)
    requires i < |xs|
    ensures Fold(init, xs[..i + 1], step) == step(Fold(init, xs[..i], step), xs[i])
  {
    assert xs[..i + 1][..i] == xs[..i];
  }

  /** Length of one bar in milliseconds. */
  const MinuteMs: int := 60000

  /** Python's `timestamp // 60000`. With a positive divisor Dafny's
      Euclidean division is floor division, as in Python. */
  function MinuteOf(ts: int): (m: int)
    ensures m * MinuteMs <= ts < (m + 1) * MinuteMs
  {
    ts / MinuteMs
  }

  /** The bucket start `minute * 60000` falls back into the same minute. */
  lemma MinuteOfBucketStart(m: int)
    ensures MinuteOf(m * MinuteMs) == m
  {
    var q := MinuteOf(m * MinuteMs);
    assert (q - m) * MinuteMs <= 0 < (q - m + 1) * MinuteMs;
  }

  /** The elements of `s` whose stamp falls in the given minute, in their
      original order (a list comprehension filtering by minute). */
  function MinuteTicks<T>(s: seq<T>, stamp: T -> int, minute: int): (r: seq<T>)
    ensures |r| <= |s|
    ensures (|s| > 0 && MinuteOf(stamp(s[|s| - 1])) == minute)
              ==> (|r| > 0 && r[|r| - 1] == s[|s| - 1])
  {
    if s == [] then []
    else
      var rest := MinuteTicks(s[..|s| - 1], stamp, minute);
      var last := s[|s| - 1];
      if MinuteOf(stamp(last)) == minute then rest + [last] else rest
  }

  /** The filter keeps exactly the elements of that minute. */
  lemma {:induction false} MinuteTicksMembers<T>(s: seq<T>, stamp: T -> int, minute: int)
    ensures forall x :: x in MinuteTicks(s, stamp, minute) <==> x in s && MinuteOf(stamp(x)) == minute
  {
    if s != [] {
      var p := s[..|s| - 1];
      MinuteTicksMembers(p, stamp, minute);
      assert s == p + [s[|s| - 1]];
    }
  }

  /** The filter distributes over concatenation, so it keeps the order of
      `s`: elements of the earlier part come first. */
  lemma {:induction false} MinuteTicksAppend<T>(a: seq<T>, b: seq<T>, stamp: T -> int, minute: int)
    ensures MinuteTicks(a + b, stamp, minute) == MinuteTicks(a, stamp, minute) + MinuteTicks(b, stamp, minute)
  {
    if b == [] {
      assert a + b == a;
    } else {
      var p := b[..|b| - 1];
      MinuteTicksAppend(a, p, stamp, minute);
      assert (a + b)[..|a + b| - 1] == a + p;
    }
  }

  /** No element of that minute: the filter keeps nothing. */
  lemma {:induction false} MinuteTicksNone<T>(s: seq<T>, stamp: T -> int, minute: int)
    requires forall j :: 0 <= j < |s| ==> MinuteOf(stamp(s[j])) != minute
    ensures MinuteTicks(s, stamp, minute) == []
  {
    if s != [] {
      MinuteTicksNone(s[..|s| - 1], stamp, minute);
    }
  }

  /** The first element the filter keeps is the earliest element of `s` in
      that minute. */
  lemma MinuteTicksFirst<T>(s: seq<T>, stamp: T -> int, minute: int, i: nat)
    requires i < |s| && MinuteOf(stamp(s[i])) == minute
    requires forall j :: 0 <= j < i ==> MinuteOf(stamp(s[j])) != minute
    ensures var r := MinuteTicks(s, stamp, minute); |r| > 0 && r[0] == s[i]
  {
    var before, rest := s[..i], s[i..];
    assert s == before + rest;
    MinuteTicksNone(before, stamp, minute);
    MinuteTicksAppend(before, rest, stamp, minute);
    assert rest == [s[i]] + rest[1..];
    MinuteTicksAppend([s[i]], rest[1..], stamp, minute);
    assert MinuteTicks([s[i]], stamp, minute) == [s[i]] by {
      assert [s[i]][..0] == [];
    }
  }

  /** `min(abs(score), 100)`, the confidence both engines report. */
  function Confidence(score: int): (c: int)
    ensures 0 <= c <= 100
    ensures c <= score || c <= -score
    ensures (score <= 100 && score >= -100) ==> (c == score || c == -score)
    ensures (score > 100 || score < -100) ==> c == 100
  {
    var a := if score < 0 then -score else score;
    if a < 100 then a else 100
  }
}
