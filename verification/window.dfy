/** Shared vocabulary of the indicator engine: optional values, the bounded
    price buffer (a deque with a maximum length) and the running aggregates
    that the indicators keep over it. Prices are exact reals. */
module Window {

  datatype Option<+T> = None | Some(value: T)

  datatype Result<+T> = Ok(value: T) | Err(message: string)

  function Max(a: real, b: real): real { if a >= b then a else b }

  /** Sum of the prices, folded from the oldest one. */
  function Sum(s: seq<real>): real
  {
    if s == [] then 0.0 else s[0] + Sum(s[1..])
  }

  /** Sum of the squared prices. */
  function SumSq(s: seq<real>): real
  {
    if s == [] then 0.0 else s[0] * s[0] + SumSq(s[1..])
  }

  /** The buffer a deque with maximum length n holds after all of s was appended
      to it: the newest n elements, or all of them if there are fewer. */
  function LastN(s: seq<real>, n: nat): (r: seq<real>)
    ensures |r| <= n && |r| <= |s|
    ensures |s| <= n ==> r == s
    ensures |s| >= n ==> |r| == n
  {
    if |s| <= n then s else s[|s| - n..]
  }

  /** Plain arithmetic mean. */
  function Mean(s: seq<real>): real
    requires |s| > 0
  {
    Sum(s) / |s| as real
  }

  /** Population variance as the Bollinger calculation derives it from the two
      running sums, clamped at zero. */
  function Variance(s: seq<real>): real
    requires |s| > 0
  {
    ClampedVariance(|s| as real, Sum(s), SumSq(s))
  }

  /** max(Q/n - (S/n)^2, 0) for a count n, a sum S and a sum of squares Q. */
  function ClampedVariance(n: real, S: real, Q: real): real
    requires n > 0.0
  {
    Max(Q / n - (S / n) * (S / n), 0.0)
  }

  /** Sum of squared deviations from m. */
  function SqDev(s: seq<real>, m: real): real
  {
    if s == [] then 0.0 else (s[0] - m) * (s[0] - m) + SqDev(s[1..], m)
  }

  /** Reference definition: the mean squared deviation from the mean. */
  function PopVariance(s: seq<real>): real
    requires |s| > 0
  {
    SqDev(s, Mean(s)) / |s| as real
  }

  lemma {:induction false} SumSnoc(s: seq<real>, x: real)
    ensures Sum(s + [x]) == Sum(s) + x
  {
    if s != [] {
      assert (s + [x])[1..] == s[1..] + [x];
      SumSnoc(s[1..], x);
    }
  }

  lemma {:induction false} SumSqSnoc(s: seq<real>, x: real)
    ensures SumSq(s + [x]) == SumSq(s) + x * x
  {
    if s != [] {
      assert (s + [x])[1..] == s[1..] + [x];
      SumSqSnoc(s[1..], x);
    }
  }

  lemma {:induction false} SumAppend(s: seq<real>, t: seq<real>)
    ensures Sum(s + t) == Sum(s) + Sum(t)
    ensures SumSq(s + t) == SumSq(s) + SumSq(t)
  {
    if s != [] {
      assert (s + t)[1..] == s[1..] + t;
      SumAppend(s[1..], t);
    } else {
      assert s + t == t;
    }
  }

  /** Appending x to a full deque drops exactly its oldest element. */
  lemma DequeAppendFull(s: seq<real>, x: real, n: nat)
    requires |s| == n > 0
    ensures LastN(s + [x], n) == s[1..] + [x]
  {
    assert (s + [x])[1..] == s[1..] + [x];
  }

  /** Sliding the window one price at a time keeps the newest n prices of
      everything fed so far. */
  lemma LastNSnoc(s: seq<real>, x: real, n: nat)
    requires n > 0
    ensures LastN(LastN(s, n) + [x], n) == LastN(s + [x], n)
  {
    if |s| >= n {
      var w := LastN(s, n);
      assert LastN(w + [x], n) == w[1..] + [x] by { DequeAppendFull(w, x, n); }
      assert w[1..] + [x] == (s + [x])[|s| + 1 - n..];
    }
  }

  /** Feeding a whole run of prices through the deque: what was evicted
      before the run does not matter. */
  lemma {:induction false} LastNAppend(s: seq<real>, t: seq<real>, n: nat)
    ensures LastN(LastN(s, n) + t, n) == LastN(s + t, n)
    decreases |t|
  {
    if t == [] {
      assert LastN(s, n) + t == LastN(s, n) && s + t == s;
    } else if n > 0 {
      var front, x := t[..|t| - 1], t[|t| - 1];
      assert t == front + [x];
      assert LastN(s, n) + t == (LastN(s, n) + front) + [x];
      assert s + t == (s + front) + [x];
      LastNSnoc(LastN(s, n) + front, x, n);
      LastNAppend(s, front, n);
      LastNSnoc(s + front, x, n);
    }
  }

  lemma {:induction false} SqDevNonNegative(s: seq<real>, m: real)
    ensures SqDev(s, m) >= 0.0
  {
    if s != [] {
      SqDevNonNegative(s[1..], m);
      assert (s[0] - m) * (s[0] - m) >= 0.0;
    }
  }

  lemma {:induction false} SqDevExpand(s: seq<real>, m: real)
    ensures SqDev(s, m) == SumSq(s) - 2.0 * m * Sum(s) + |s| as real * m * m
  {
    if s != [] {
      var a, r := s[0], s[1..];
      SqDevExpand(r, m);
      assert |s| as real == |r| as real + 1.0;
      ExpandStep(a, m, |r| as real, Sum(r), SumSq(r), SqDev(r, m),
                 |s| as real, Sum(s), SumSq(s), SqDev(s, m));
    }
  }

  /** The inductive step of SqDevExpand on plain reals: one more element a
      adds (a - m)^2 to the sum of squared deviations (d to d2), a to the sum
      (S to S2), a^2 to the sum of squares (Q to Q2) and one to the count. */
  lemma ExpandStep(a: real, m: real, k: real, S: real, Q: real, d: real,
                   k2: real, S2: real, Q2: real, d2: real)
    requires d == Q - 2.0 * m * S + k * m * m
    requires k2 == k + 1.0 && S2 == a + S && Q2 == a * a + Q && d2 == (a - m) * (a - m) + d
    ensures d2 == Q2 - 2.0 * m * S2 + k2 * m * m
  {
    assert k2 * m * m == k * m * m + m * m by {
      Distribute(m * m, k, 1.0);
    }
    assert 2.0 * m * S2 == 2.0 * m * a + 2.0 * m * S by {
      Distribute(2.0 * m, a, S);
    }
    assert (a - m) * (a - m) == a * a - 2.0 * m * a + m * m;
  }

  lemma Distribute(c: real, x: real, y: real)
    ensures (x + y) * c == x * c + y * c && c * (x + y) == c * x + c * y
  {
  }

  /** The zero clamp on the variance never bites in exact arithmetic: the value
      computed from the running sums is the population variance itself. */
  lemma VarianceIsPopVariance(s: seq<real>)
    requires |s| > 0
    ensures Variance(s) == PopVariance(s) >= 0.0
  {
    var m := Mean(s);
    SqDevExpand(s, m);
    SqDevNonNegative(s, m);
    ClampArithmetic(|s| as real, Sum(s), SumSq(s), SqDev(s, m));
  }

  /** The algebra behind VarianceIsPopVariance, on plain reals: with m = S/n,
      Q - 2mS + n*m*m = n*(Q/n - m*m). */
  lemma ClampArithmetic(n: real, S: real, Q: real, d: real)
    requires n > 0.0 && d >= 0.0
    requires d == Q - 2.0 * (S / n) * S + n * (S / n) * (S / n)
    ensures ClampedVariance(n, S, Q) == d / n >= 0.0
  {
    var m := S / n;
    assert n * m == S;
    assert n * m * m == S * m;
    assert d == Q - m * S;
    assert m * S == (m * m) * n;
    assert d / n == Q / n - (m * S) / n;
    assert ((m * m) * n) / n == m * m;
  }

}
