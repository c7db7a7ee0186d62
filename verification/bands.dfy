/** Bollinger Bands over a sliding window, kept in O(1) per price with a running
    sum and a running sum of squares. The square root is not modelled: the
    caller supplies the standard deviation `std`, and the contracts require it
    to be the non-negative root of the variance the calculation derives. */
module Bollinger {
  import opened Window

  /** The record an update stores and returns. */
  datatype Bands = Bands(
    mid: real, std: real,
    upper1: real, lower1: real,
    upper2: real, lower2: real,
    upperK: real, lowerK: real,
    width: real, pctB: real)

  /** The bands around `mid` at one, two and `k` standard deviations, their
      width and where `price` sits in the k-band (%b). */
  function BandsAt(mid: real, std: real, k: real, price: real): (b: Bands)
    requires std >= 0.0
    ensures b.mid == mid && b.std == std
    ensures Ordered(b)
    ensures b.upper1 - mid == mid - b.lower1 == std
    ensures b.upper2 - mid == mid - b.lower2 == 2.0 * std
    ensures b.upperK == mid + k * std && b.lowerK == mid - k * std
    ensures b.width == b.upperK - b.lowerK == 2.0 * k * std
    ensures k >= 0.0 ==> b.width >= 0.0 && b.lowerK <= mid <= b.upperK
    ensures b.width <= 0.0 ==> b.pctB == 0.5
    ensures b.width > 0.0 ==> b.lowerK + b.pctB * b.width == price
  {
    var upperK := mid + k * std;
    var lowerK := mid - k * std;
    var width := upperK - lowerK;
    Bands(mid, std,
          mid + std, mid - std,
          mid + 2.0 * std, mid - 2.0 * std,
          upperK, lowerK,
          width, if width > 0.0 then (price - lowerK) / width else 0.5)
  }

  ghost predicate Ordered(b: Bands)
  {
    0.0 <= b.std && b.lower2 <= b.lower1 <= b.mid <= b.upper1 <= b.upper2
  }

  /** `std` is the non-negative square root of the window's variance. */
  ghost predicate IsStd(std: real, w: seq<real>)
    requires |w| > 0
  {
    std >= 0.0 && std * std == Variance(w)
  }

  /** The window after the warm-up loop has appended the newest `window`
      prices, evicting as it goes. */
  function Loaded(buf: seq<real>, prices: seq<real>, window: nat): seq<real>
  {
    LastN(buf + LastN(prices, window), window)
  }

  /** The window after the warm-up's closing update, which feeds the newest
      loaded price once more. */
  function Echoed(buf: seq<real>, prices: seq<real>, window: nat): seq<real>
  {
    var w := Loaded(buf, prices, window);
    if w == [] then [] else LastN(w + [w[|w| - 1]], window)
  }

  class BollingerBands {
    const window: nat
    const k: real
    /** The deque with maximum length `window`, oldest price first. */
    var buf: seq<real>
    var sum: real
    var sumsq: real
    var last: Option<Bands>

    ghost predicate Valid()
      reads this
    {
      0 < window && |buf| <= window &&
      sum == Sum(buf) && sumsq == SumSq(buf) &&
      (last.Some? ==> Ordered(last.value))
    }

    constructor (window: nat, k: real)
      requires window > 0
      ensures Valid() && this.window == window && this.k == k
      ensures buf == [] && last == None
    {
      this.window, this.k := window, k;
      buf, sum, sumsq, last := [], 0.0, 0.0, None;
    }

    /** Appends one price; when the buffer is full the oldest price leaves
        both running sums before the append evicts it. */
    method Push(price: real)
      requires Valid()
      modifies this
      ensures Valid() && last == old(last)
      ensures buf == LastN(old(buf) + [price], window)
    {
      if |buf| == window {
        var oldest := buf[0];
        sum := sum - oldest;
        sumsq := sumsq - oldest * oldest;
        DequeAppendFull(buf, price, window);
        SumSnoc(buf[1..], price);
        SumSqSnoc(buf[1..], price);
      } else {
        SumSnoc(buf, price);
        SumSqSnoc(buf, price);
      }
      buf := LastN(buf + [price], window);
      sum := sum + price;
      sumsq := sumsq + price * price;
    }

    /** Feeds one price and derives the bands of the new window; the record is
        stored in `last` and returned. Its centre is the window's mean and its
        spread the population standard deviation of the window. */
    method Update(price: real, std: real) returns (r: Option<Bands>)
      requires Valid()
      requires IsStd(std, LastN(buf + [price], window))
      modifies this
      ensures Valid()
      ensures buf == LastN(old(buf) + [price], window)
      ensures r == last && r.Some?
      ensures r.value == BandsAt(Mean(buf), std, k, price)
      ensures r.value.std * r.value.std == PopVariance(buf)
    {
      Push(price);
      var n := |buf| as real;
      var mid := sum / n;
      var variance := Max(sumsq / n - mid * mid, 0.0);
      assert variance == Variance(buf);
      assert std * std == variance;
      VarianceIsPopVariance(buf);
      last := Some(BandsAt(mid, std, k, price));
      r := last;
    }

    /** Appends the prices in order, each through `Push`. */
    method PushAll(cache: seq<real>)
      requires Valid()
      modifies this
      ensures Valid() && last == old(last)
      ensures buf == LastN(old(buf) + cache, window)
    {
      ghost var start := buf;
      for i := 0 to |cache|
        invariant Valid() && last == old(last)
        invariant buf == LastN(start + cache[..i], window)
      {
        assert start + cache[..i + 1] == (start + cache[..i]) + [cache[i]];
        LastNSnoc(start + cache[..i], cache[i], window);
        Push(cache[i]);
      }
      assert cache[..|cache|] == cache;
    }

    /** Warm-up: appends the newest `window` prices to the buffer as it is (no
        reset), then updates once with the newest buffered price; no value when
        the buffer stays empty. Each append evicts through the running sums as
        `Push` does. */
    method InitPrices(prices: seq<real>, std: real) returns (r: Option<Bands>)
      requires Valid()
      requires Echoed(buf, prices, window) != [] ==> IsStd(std, Echoed(buf, prices, window))
      modifies this
      ensures Valid()
      ensures buf == Echoed(old(buf), prices, window)
      ensures r.None? <==> old(buf) == [] && prices == []
      ensures r.None? ==> last == old(last)
      ensures r.Some? ==> r == last && r.value == BandsAt(Mean(buf), std, k, buf[|buf| - 1])
    {
      PushAll(LastN(prices, window));
      ghost var w := buf;
      assert w == Loaded(old(buf), prices, window);
      if |buf| > 0 {
        assert LastN(w + [w[|w| - 1]], window) == Echoed(old(buf), prices, window);
        r := Update(buf[|buf| - 1], std);
        assert buf[|buf| - 1] == w[|w| - 1];
      } else {
        r := None;
      }
    }
  }

  /** The warm-up loop as bb.py:20-23 writes it: the deque drops its oldest
      price on a full append, but the running sums keep it. The buffer comes
      out right; the sums are the old ones plus every loaded price. */
  function LoadAsWritten(buf: seq<real>, sum: real, sumsq: real, cache: seq<real>, window: nat)
    : (r: (seq<real>, real, real))
    requires |buf| <= window
    ensures r.0 == LastN(buf + cache, window)
    ensures r.1 == sum + Sum(cache) && r.2 == sumsq + SumSq(cache)
    decreases |cache|
  {
    if cache == [] then
      assert buf + cache == buf;
      (buf, sum, sumsq)
    else
      var b := buf + [cache[0]];
      LastNAppend(b, cache[1..], window);
      assert b + cache[1..] == buf + cache;
      LoadAsWritten(LastN(b, window), sum + cache[0],
                    sumsq + cache[0] * cache[0], cache[1..], window)
  }

  /** When nothing is evicted (a fresh instance, say) the loop as written and
      the corrected one agree: the sums stay those of the buffer. */
  lemma LoadAsWrittenWithoutEviction(buf: seq<real>, cache: seq<real>, window: nat)
    requires |buf| + |cache| <= window
    ensures LoadAsWritten(buf, Sum(buf), SumSq(buf), cache, window)
            == (buf + cache, Sum(buf + cache), SumSq(buf + cache))
  {
    SumAppend(buf, cache);
  }

  /** Window 2 after a warm-up on [1, 2] holds [2, 2] with sums 4 and 8; a
      second warm-up on [5] leaves the buffer [2, 5] but the sum 9, not 7. */
  lemma LoadAsWrittenLosesSums()
    ensures var (b, s, q) := LoadAsWritten([2.0, 2.0], 4.0, 8.0, [5.0], 2);
            b == [2.0, 5.0] && s == 9.0 && Sum(b) == 7.0 && q != SumSq(b)
  {
    assert LastN([2.0, 2.0] + [5.0], 2) == [2.0, 5.0];
  }

  /** On a fresh instance with at least `window` prices, the warm-up's closing
      update drops the oldest loaded price and counts the newest one twice. */
  lemma {:induction false} EchoDropsOldest(prices: seq<real>, window: nat)
    requires 0 < window <= |prices|
    ensures Echoed([], prices, window)
            == prices[|prices| - window + 1..] + [prices[|prices| - 1]]
  {
    var w := Loaded([], prices, window);
    assert w == prices[|prices| - window..];
    DequeAppendFull(w, w[|w| - 1], window);
    assert w[1..] == prices[|prices| - window + 1..];
  }

  /** Window 2, k = 2 warmed up on [1, 3]: the echo leaves [3, 3], so the
      spread is zero and %b falls back to 0.5. */
  method WarmUpEcho() returns (r: Option<Bands>)
    ensures r == Some(Bands(3.0, 0.0, 3.0, 3.0, 3.0, 3.0, 3.0, 3.0, 0.0, 0.5))
  {
    var bb := new BollingerBands(2, 2.0);
    EchoDropsOldest([1.0, 3.0], 2);
    assert Sum([3.0, 3.0]) == 6.0 && SumSq([3.0, 3.0]) == 18.0;
    assert Variance([3.0, 3.0]) == 0.0;
    r := bb.InitPrices([1.0, 3.0], 0.0);
  }
}
