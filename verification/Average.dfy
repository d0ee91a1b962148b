/** The running average behind a metric, with floating point idealised to exact
    division of reals; division by an empty list is kept apart as NaN. */
module Average {
  import opened Basics

  datatype Float = Number(value: real) | NaN

  function Sum(xs: seq<int>): int {
    if xs == [] then 0 else Sum(xs[..|xs| - 1]) + xs[|xs| - 1]
  }

  /** With SumAppend this leaves no function but the sum. */
  lemma SumOne(x: int)
    ensures Sum([x]) == x && Sum([]) == 0
  {
    assert [x][..0] == [];
  }

  lemma {:induction false} SumAppend(a: seq<int>, b: seq<int>)
    ensures Sum(a + b) == Sum(a) + Sum(b)
  {
    if b == [] {
      assert a + b == a;
    } else {
      SumAppend(a, b[..|b| - 1]);
      assert (a + b)[..|a + b| - 1] == a + b[..|b| - 1];
    }
  }

  function Mean(xs: seq<int>): Float {
    if xs == [] then NaN else Number(Sum(xs) as real / |xs| as real)
  }

  const I32_MAX := 0x7fff_ffff

  /** A saturating cast that truncates towards zero; NaN becomes 0. */
  function AsI32(f: Float): int {
    match f
    case NaN => 0
    case Number(r) =>
      var n := if r < 0.0 then -((-r).Floor) else r.Floor;
      if n > I32_MAX then I32_MAX else if n < -I32_MAX - 1 then -I32_MAX - 1 else n
  }

  /** Within range the cast drops the fraction, towards zero; NaN becomes 0. */
  lemma CastTruncates(r: real)
    requires -2147483649.0 < r < 2147483648.0
    ensures var n := AsI32(Number(r)) as real;
            if r >= 0.0 then 0.0 <= r - n < 1.0 && n >= 0.0 else 0.0 <= n - r < 1.0 && n <= 0.0
    ensures AsI32(NaN) == 0
  {
  }

  class AveragedCollection {
    var list: seq<int>
    var average: Float

    /** Only a collection that was never added to may report something other
        than the mean of its elements. */
    predicate Valid()
      reads this
    {
      average == Mean(list) || (list == [] && average == Number(0.0))
    }

    constructor ()
      ensures Valid() && list == [] && average == Number(0.0)
    {
      list := [];
      average := Number(0.0);
    }

    method Add(value: int)
      modifies this
      ensures Valid() && list == old(list) + [value] && average == Mean(list)
      ensures average == Number((Sum(old(list)) + value) as real / (|old(list)| + 1) as real)
    {
      SumOne(value);
      SumAppend(list, [value]);
      list := list + [value];
      UpdateAverage();
    }

    /** Removing the last remaining element leaves NaN behind. */
    method Remove() returns (result: Option<int>)
      requires Valid()
      modifies this
      ensures Valid()
      ensures old(list) == [] ==> result == None && list == [] && average == old(average)
      ensures old(list) != [] ==> result == Some(old(list)[|old(list)| - 1])
                                  && list == old(list)[..|old(list)| - 1] && average == Mean(list)
    {
      if list == [] {
        return None;
      }
      result := Some(list[|list| - 1]);
      list := list[..|list| - 1];
      UpdateAverage();
    }

    method UpdateAverage()
      modifies this`average
      ensures average == Mean(list)
    {
      var total := 0;
      var i := 0;
      while i < |list|
        invariant 0 <= i <= |list| && total == Sum(list[..i])
      {
        assert list[..i + 1][..i] == list[..i];
        total := total + list[i];
        i := i + 1;
      }
      assert list[..|list|] == list;
      average := if |list| == 0 then NaN else Number(total as real / |list| as real);
    }
  }

  lemma {:induction false} SumBounds(xs: seq<int>, low: int, high: int)
    requires forall i :: 0 <= i < |xs| ==> low <= xs[i] <= high
    ensures low * |xs| <= Sum(xs) <= high * |xs|
  {
    if xs != [] {
      SumBounds(xs[..|xs| - 1], low, high);
    }
  }

  lemma FloorDivision(s: nat, n: nat)
    requires n > 0
    ensures (s as real / n as real).Floor == s / n
  {
    var q, d := s / n, n as real;
    var r := s as real / d;
    assert r * d == s as real;
    Quotients(q, s % n, n);
    AtMostFactor(q as real, r, d);
    BelowFactor(r, (q + 1) as real, d);
    assert q as real <= r < (q + 1) as real;
  }

  lemma Quotients(q: nat, rest: nat, n: nat)
    requires rest < n
    ensures q as real * n as real <= (q * n + rest) as real < (q + 1) as real * n as real
  {
    assert (q + 1) * n == q * n + n;
    assert (q * n) as real == q as real * n as real;
    assert ((q + 1) * n) as real == (q + 1) as real * n as real;
  }

  lemma Scaled(a: real, b: real, d: real)
    requires d > 0.0 && a < b
    ensures a * d < b * d
  {
    assert (b - a) * d > 0.0;
  }

  lemma AtMostFactor(a: real, b: real, d: real)
    requires d > 0.0 && a * d <= b * d
    ensures a <= b
  {
    if b < a {
      Scaled(b, a, d);
    }
  }

  lemma BelowFactor(a: real, b: real, d: real)
    requires d > 0.0 && a * d < b * d
    ensures a < b
  {
    if b < a {
      Scaled(b, a, d);
    }
  }

  lemma SumSplits(xs: seq<int>)
    ensures |xs| == 1 ==> Sum(xs) == xs[0]
    ensures forall k :: 0 <= k <= |xs| ==> Sum(xs) == Sum(xs[..k]) + Sum(xs[k..])
  {
    if |xs| == 1 {
      assert xs == [xs[0]];
      SumOne(xs[0]);
    }
    forall k | 0 <= k <= |xs|
      ensures Sum(xs) == Sum(xs[..k]) + Sum(xs[k..])
    {
      assert xs == xs[..k] + xs[k..];
      SumAppend(xs[..k], xs[k..]);
    }
  }

  /** The reported average of non-negative durations: the floor of the exact
      mean, between minimum and maximum, cut off at the largest i32. */
  lemma ReportedAverage(xs: seq<int>, low: nat, high: nat)
    requires xs != [] && forall i :: 0 <= i < |xs| ==> low <= xs[i] <= high
    ensures Sum(xs) >= 0 && (|xs| == 1 ==> Sum(xs) == xs[0])
    ensures forall k :: 0 <= k <= |xs| ==> Sum(xs) == Sum(xs[..k]) + Sum(xs[k..])
    ensures low <= Sum(xs) / |xs| <= high
    ensures AsI32(Mean(xs)) == if Sum(xs) / |xs| > 0x7fff_ffff then 0x7fff_ffff else Sum(xs) / |xs|
  {
    SumSplits(xs);
    SumBounds(xs, low, high);
    var n := |xs|;
    Quotient(Sum(xs), n, low, high);
    FloorDivision(Sum(xs), n);
  }

  lemma Quotient(s: int, n: nat, low: nat, high: nat)
    requires n > 0 && low * n <= s <= high * n
    ensures 0 <= s && low <= s / n <= high
  {
    var q := s / n;
    assert s == q * n + s % n;
    assert q < low ==> (q + 1) * n <= low * n;
    assert q > high ==> (high + 1) * n <= q * n;
  }
}
