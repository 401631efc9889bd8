/**
 * Window averaging and scaling of reading series (api/sensor.js,
 * `averageEveryXNumbers`, `averagedAdc`, `getScaledAdc`).
 */
module Series {
  import opened SampleData

  /** Seconds between sensor ADC readings (`SECONDS`). */
  const SECONDS: int := 60

  function Abs(x: int): nat {
    if x < 0 then -x else x
  }

  /** Sum of a list, built by adding the last element as the source's accumulator does. */
  function Sum(s: seq<real>): real {
    if s == [] then 0.0 else Sum(s[..|s| - 1]) + s[|s| - 1]
  }

  /**
   * Reference definition: cut the samples into consecutive windows of |x|
   * elements, drop a trailing partial window, and divide each window's sum by x.
   * A window of 0 yields nothing.
   */
  function WindowMeans(s: seq<real>, x: int): seq<real>
    decreases |s|
  {
    if x == 0 || |s| < Abs(x) then []
    else [Sum(s[..Abs(x)]) / (x as real)] + WindowMeans(s[Abs(x)..], x)
  }

  lemma {:induction false} MulAtLeast(a: int, w: int)
    requires a >= 1 && w > 0
    ensures a * w >= w
    decreases a
  {
    if a > 1 {
      MulAtLeast(a - 1, w);
      assert a * w == (a - 1) * w + w;
    }
  }

  /** Euclidean division is determined by quotient and remainder. */
  lemma DivModUnique(n: int, w: int, q: int, r: int)
    requires w > 0 && n == q * w + r && 0 <= r < w
    ensures n / w == q && n % w == r
  {
    var q', r' := n / w, n % w;
    assert n == q' * w + r';
    assert (q - q') * w == r' - r;
    if q > q' {
      MulAtLeast(q - q', w);
    } else if q < q' {
      MulAtLeast(q' - q, w);
    }
  }

  lemma DivMod(n: int, w: int)
    requires w > 0
    ensures n == (n / w) * w + n % w && 0 <= n % w < w
  {
  }

  /** The largest multiple of w not above n. */
  lemma FloorMultiple(n: nat, w: int)
    requires w > 0
    ensures 0 <= (n / w) * w <= n && n - (n / w) * w < w && ((n / w) * w) % w == 0
  {
    var m := n / w;
    DivMod(n, w);
    DivModUnique(m * w, w, m, 0);
  }

  lemma DivSub(n: int, w: int)
    requires n >= w > 0
    ensures (n - w) / w == n / w - 1 && (n - w) % w == n % w
  {
    DivModUnique(n - w, w, n / w - 1, n % w);
  }

  /** For a window x != 0 there are exactly floor(N / |x|) means. */
  lemma {:induction false} WindowMeansLength(s: seq<real>, x: int)
    ensures x == 0 ==> WindowMeans(s, x) == []
    ensures x != 0 ==> |WindowMeans(s, x)| == |s| / Abs(x)
    decreases |s|
  {
    if x != 0 {
      var w := Abs(x);
      if |s| >= w {
        WindowMeansLength(s[w..], x);
        DivSub(|s|, w);
        assert WindowMeans(s, x) == [Sum(s[..w]) / (x as real)] + WindowMeans(s[w..], x);
      } else {
        DivModUnique(|s|, w, 0, |s|);
      }
    }
  }

  lemma MulStep(k: int, w: int)
    ensures k * w == (k - 1) * w + w
  {
  }

  lemma DivAtLeastOne(n: int, w: int)
    requires w > 0 && n / w >= 1
    ensures n >= w
  {
    DivMod(n, w);
    MulAtLeast(n / w, w);
  }

  lemma SliceShift(s: seq<real>, w: int, a: int, len: int)
    requires 0 <= w <= |s| && 0 <= a && 0 <= len && a + len <= |s| - w
    ensures s[w..][a .. a + len] == s[w + a .. w + a + len]
  {
  }

  /** Mean number k is the window s[k*|x| .. k*|x| + |x|] divided by x. */
  lemma {:induction false} WindowMeansAt(s: seq<real>, x: int, k: int)
    requires x != 0 && 0 <= k < |s| / Abs(x)
    ensures |WindowMeans(s, x)| == |s| / Abs(x)
    ensures k * Abs(x) + Abs(x) <= |s|
    ensures WindowMeans(s, x)[k] == Sum(s[k * Abs(x) .. k * Abs(x) + Abs(x)]) / (x as real)
    decreases |s|
  {
    var w := Abs(x);
    WindowMeansLength(s, x);
    DivAtLeastOne(|s|, w);
    DivSub(|s|, w);
    var rest := s[w..];
    assert WindowMeans(s, x) == [Sum(s[..w]) / (x as real)] + WindowMeans(rest, x);
    if k > 0 {
      WindowMeansAt(rest, x, k - 1);
      var a, b := (k - 1) * w, k * w;
      MulStep(k, w);
      SliceShift(s, w, a, w);
      assert b + w <= |s|;
    } else {
      assert k * w == 0;
    }
  }

  /** Cutting the samples at any window boundary within the last partial window changes nothing. */
  lemma {:induction false} WindowMeansPrefix(s: seq<real>, x: int, n: int)
    requires x != 0 && 0 <= n <= |s| && |s| - n < Abs(x) && n % Abs(x) == 0
    ensures WindowMeans(s, x) == WindowMeans(s[..n], x)
    decreases |s|
  {
    var w := Abs(x);
    if n < w {
      DivModUnique(n, w, 0, n);
    }
    if |s| >= w {
      DivSub(n, w);
      assert s[..n][..w] == s[..w];
      assert s[..n][w..] == s[w..][..n - w];
      WindowMeansPrefix(s[w..], x, n - w);
    }
  }

  /** Samples after the last complete window never reach the result. */
  lemma WindowMeansDropsTail(s: seq<real>, x: int)
    requires x != 0
    ensures (|s| / Abs(x)) * Abs(x) <= |s|
    ensures WindowMeans(s, x) == WindowMeans(s[..(|s| / Abs(x)) * Abs(x)], x)
  {
    var w := Abs(x);
    FloorMultiple(|s|, w);
    WindowMeansPrefix(s, x, (|s| / w) * w);
  }

  /** Appending one complete window after complete windows appends its mean. */
  lemma {:induction false} WindowMeansSnoc(p: seq<real>, win: seq<real>, x: int)
    requires x != 0 && |p| % Abs(x) == 0 && |win| == Abs(x)
    ensures WindowMeans(p + win, x) == WindowMeans(p, x) + [Sum(win) / (x as real)]
    decreases |p|
  {
    var w := Abs(x);
    if |p| == 0 {
      assert p + win == win;
      assert win[..w] == win;
    } else {
      if |p| < w {
        DivModUnique(|p|, w, 0, |p|);
      }
      DivSub(|p|, w);
      assert (p + win)[..w] == p[..w];
      assert (p + win)[w..] == p[w..] + win;
      WindowMeansSnoc(p[w..], win, x);
    }
  }

  lemma SumSnoc(s: seq<real>, a: int, i: int)
    requires 0 <= a <= i < |s|
    ensures Sum(s[a..i + 1]) == Sum(s[a..i]) + s[i]
  {
    assert s[a..i + 1][..i - a] == s[a..i];
  }

  /**
   * One iteration of the accumulator loop. `start` is where the current window
   * began, q the number of windows already averaged.
   */
  lemma AverageStep(numbers: seq<real>, x: int, i: int, q: int, start: int)
    requires x != 0 && 0 <= start <= i < |numbers| && q >= 0
    requires start == q * Abs(x) && i - start < Abs(x)
    ensures (i + 1) % Abs(x) == 0 <==> i + 1 - start == Abs(x)
    ensures Sum(numbers[start..i + 1]) == Sum(numbers[start..i]) + numbers[i]
    ensures i + 1 - start == Abs(x) ==>
              start + Abs(x) == (q + 1) * Abs(x) &&
              WindowMeans(numbers[..start], x) + [Sum(numbers[start..i + 1]) / (x as real)]
                == WindowMeans(numbers[..i + 1], x)
  {
    var w := Abs(x);
    SumSnoc(numbers, start, i);
    if i + 1 - start == w {
      DivModUnique(i + 1, w, q + 1, 0);
      DivModUnique(start, w, q, 0);
      WindowMeansSnoc(numbers[..start], numbers[start..i + 1], x);
      assert numbers[..start] + numbers[start..i + 1] == numbers[..i + 1];
    } else {
      DivModUnique(i + 1, w, q, i + 1 - start);
    }
  }

  /**
   * `averageEveryXNumbers`: one pass with a running sum that is pushed
   * (divided by x) and reset whenever i + 1 is a multiple of x. The JavaScript
   * test `(i + 1) % x === 0` is never true for x == 0 (NaN), and for x < 0 it
   * holds when |x| divides i + 1.
   */
  method AverageEveryXNumbers(numbers: seq<real>, x: int) returns (averages: seq<real>)
    ensures averages == WindowMeans(numbers, x)
  {
    averages := [];
    var sum := 0.0;
    var w := Abs(x);
    ghost var q, start := 0, 0;
    for i := 0 to |numbers|
      invariant x == 0 ==> averages == []
      invariant x != 0 ==> 0 <= start <= i && q >= 0 && start == q * w && i - start < w
      invariant x != 0 ==> averages == WindowMeans(numbers[..start], x)
      invariant x != 0 ==> sum == Sum(numbers[start..i])
    {
      if x != 0 {
        AverageStep(numbers, x, i, q, start);
      }
      sum := sum + numbers[i];
      if x != 0 && (i + 1) % w == 0 {
        averages := averages + [sum / (x as real)];
        sum := 0.0;
        q, start := q + 1, i + 1;
      }
    }
    if x != 0 {
      DivModUnique(|numbers|, w, q, |numbers| - start);
      WindowMeansDropsTail(numbers, x);
      assert numbers[..|numbers|] == numbers;
    } else {
      WindowMeansLength(numbers, x);
    }
  }

  lemma WindowMeansExample()
    ensures WindowMeans([1.0, 2.0, 3.0, 4.0, 5.0], 2) == [1.5, 3.5]
  {
    var s := [1.0, 2.0, 3.0, 4.0, 5.0];
    assert s[..2] == [1.0, 2.0] && s[2..] == [3.0, 4.0, 5.0];
    assert s[2..][..2] == [3.0, 4.0] && s[2..][2..] == [5.0];
    assert Sum([1.0, 2.0]) == 3.0 by {
      assert [1.0, 2.0][..1] == [1.0];
      assert [1.0][..0] == [];
    }
    assert Sum([3.0, 4.0]) == 7.0 by {
      assert [3.0, 4.0][..1] == [3.0];
      assert [3.0][..0] == [];
    }
  }

  /** `averagedAdc`: the example trial averaged over windows of SECONDS samples. */
  function AveragedAdc(): seq<real> {
    WindowMeans(ExampleAdc(), SECONDS)
  }

  /** Any 1647-sample series averaged over 60 gives 27 means and ignores its last 27 samples. */
  lemma TrialShape(s: seq<real>)
    requires |s| == 1647
    ensures |WindowMeans(s, SECONDS)| == 27
    ensures WindowMeans(s, SECONDS) == WindowMeans(s[..1620], SECONDS)
    ensures forall k :: 0 <= k < 27 ==> WindowMeans(s, SECONDS)[k] == Sum(s[k * 60 .. k * 60 + 60]) / 60.0
  {
    WindowMeansLength(s, SECONDS);
    WindowMeansDropsTail(s, SECONDS);
    forall k | 0 <= k < 27
      ensures WindowMeans(s, SECONDS)[k] == Sum(s[k * 60 .. k * 60 + 60]) / 60.0
    {
      WindowMeansAt(s, SECONDS, k);
    }
  }

  /**
   * The 1647 example samples give 27 means; the last 27 samples (positions
   * 1620 to 1646) form a partial window and are never averaged.
   */
  lemma AveragedAdcShape()
    ensures |ExampleAdc()| == 1647
    ensures |AveragedAdc()| == 27
    ensures AveragedAdc() == WindowMeans(ExampleAdc()[..1620], SECONDS)
    ensures forall k :: 0 <= k < 27 ==> AveragedAdc()[k] == Sum(ExampleAdc()[k * 60 .. k * 60 + 60]) / 60.0
  {
    TrialShape(ExampleAdc());
  }

  /** The length alone, without the per-window facts about the literal. */
  lemma AveragedAdcLength()
    ensures |AveragedAdc()| == 27
  {
    AveragedAdcShape();
  }

  /** r is s with every element multiplied by k. */
  predicate ScaledBy(r: seq<real>, s: seq<real>, k: real) {
    |r| == |s| && forall i :: 0 <= i < |s| ==> r[i] == s[i] * k
  }

  /** Element-wise multiplication of a series by k (the `map` of getScaledAdc). */
  function Scale(s: seq<real>, k: real): (r: seq<real>)
    ensures ScaledBy(r, s, k)
  {
    seq(|s|, i requires 0 <= i < |s| => s[i] * k)
  }

  /** `getScaledAdc(k)`: every example mean multiplied by k, so 27 values. */
  function ScaledAdc(k: real): (r: seq<real>)
    ensures |r| == |AveragedAdc()| == 27
    ensures ScaledBy(r, AveragedAdc(), k)
  {
    AveragedAdcLength();
    Scale(AveragedAdc(), k)
  }

  /** Scaling by 1 gives the series back; scaling by 0 gives zeros of the same length. */
  lemma ScaleIdentityAndZero(s: seq<real>)
    ensures Scale(s, 1.0) == s
    ensures Scale(s, 0.0) == seq(|s|, i => 0.0)
  {
  }
}
