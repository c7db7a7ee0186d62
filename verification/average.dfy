/** Sliding-window simple moving average, updated in O(1) per price. */
module Average {
  import opened Window

  class MovingAverage {
    const window: nat
    /** The deque with maximum length `window`, oldest price first. */
    var buf: seq<real>
    /** Running sum of `buf`. */
    var sum: real
    var latestMa: Option<real>
    /** Every price fed since the last reset or init. */
    ghost var history: seq<real>

    ghost predicate Valid()
      reads this
    {
      0 < window &&
      buf == LastN(history, window) &&
      sum == Sum(buf) &&
      latestMa == (if |buf| > 0 then Some(Mean(buf)) else None)
    }

    constructor (window: nat)
      requires window > 0
      ensures Valid() && this.window == window && history == []
    {
      this.window := window;
      buf, sum, latestMa := [], 0.0, None;
      history := [];
    }

    /** Empties the buffer and forgets the stored average. */
    method Reset()
      requires Valid()
      modifies this
      ensures Valid() && history == []
      ensures buf == [] && sum == 0.0 && latestMa == None
    {
      buf, sum, latestMa := [], 0.0, None;
      history := [];
    }

    /** Warm-up: resets, then loads only the newest `window` prices; the result
        is the partial or full mean, and no value for no prices. The state
        afterwards depends on `prices` alone, so a second call with the same
        prices changes nothing. */
    method InitPrices(prices: seq<real>) returns (r: Option<real>)
      requires Valid()
      modifies this
      ensures Valid() && history == prices
      ensures r == latestMa
      ensures r == if prices == [] then None else Some(Mean(LastN(prices, window)))
    {
      Reset();
      var cache := LastN(prices, window);
      var i := 0;
      while i < |cache|
        invariant 0 <= i <= |cache|
        invariant buf == cache[..i] && sum == Sum(buf)
      {
        assert cache[..i + 1] == buf + [cache[i]];
        SumSnoc(buf, cache[i]);
        buf := LastN(buf + [cache[i]], window);
        sum := sum + cache[i];
        i := i + 1;
      }
      assert buf == cache;
      history := prices;
      var n := |buf|;
      latestMa := if n > 0 then Some(sum / n as real) else None;
      r := latestMa;
    }

    /** Feeds one price: when the buffer is full the oldest price leaves the
        running sum before the append evicts it. The result is the mean of the
        newest `window` prices fed since the last reset or init. */
    method Update(price: real) returns (r: Option<real>)
      requires Valid()
      modifies this
      ensures Valid() && history == old(history) + [price]
      ensures buf == LastN(old(buf) + [price], window)
      ensures r == latestMa == Some(Mean(LastN(history, window)))
    {
      if |buf| == window {
        sum := sum - buf[0];
        assert sum == Sum(buf[1..]);
        DequeAppendFull(buf, price, window);
        SumSnoc(buf[1..], price);
      } else {
        SumSnoc(buf, price);
      }
      LastNSnoc(history, price, window);
      buf := LastN(buf + [price], window);
      sum := sum + price;
      history := history + [price];
      var n := |buf|;
      latestMa := if n > 0 then Some(sum / n as real) else None;
      r := latestMa;
    }

    /** Full once at least `window` prices have been fed. */
    function Ready(): (b: bool)
      reads this
      requires Valid()
      ensures b <==> |history| >= window
    {
      |buf| == window
    }

    /** The value stored by the last init or update. */
    function Latest(): (r: Option<real>)
      reads this
      requires Valid()
      ensures r == if history == [] then None else Some(Mean(LastN(history, window)))
    {
      latestMa
    }
  }

  /** The constructor's check: a window that is not positive is an error. */
  method Create(window: int) returns (r: Result<MovingAverage>)
    ensures r.Err? <==> window <= 0
    ensures r.Ok? ==> fresh(r.value) && r.value.Valid() && r.value.window == window
                      && r.value.history == []
  {
    if window <= 0 {
      return Err("window must be positive");
    }
    var ma := new MovingAverage(window);
    return Ok(ma);
  }

  /** Window 3 fed 1, 2, 3, 4 yields 1, 1.5, 2 and 3. */
  method WindowOfThree() returns (outs: seq<Option<real>>)
    ensures outs == [Some(1.0), Some(1.5), Some(2.0), Some(3.0)]
  {
    var ma := new MovingAverage(3);
    var a := ma.Update(1.0);
    assert ma.history == [1.0] && Sum([1.0]) == 1.0;
    assert a == Some(1.0);
    var b := ma.Update(2.0);
    assert ma.history == [1.0, 2.0] && Sum([1.0, 2.0]) == 3.0;
    assert b == Some(1.5);
    var c := ma.Update(3.0);
    assert ma.history == [1.0, 2.0, 3.0] && Sum([1.0, 2.0, 3.0]) == 6.0;
    assert c == Some(2.0);
    var d := ma.Update(4.0);
    assert ma.history == [1.0, 2.0, 3.0, 4.0];
    assert LastN(ma.history, 3) == [2.0, 3.0, 4.0];
    assert Sum([2.0, 3.0, 4.0]) == 9.0;
    assert d == Some(3.0);
    outs := [a, b, c, d];
  }

  /** Calling init twice with the same prices leaves the same result. */
  method InitTwice(ma: MovingAverage, prices: seq<real>) returns (first: Option<real>, second: Option<real>)
    requires ma.Valid()
    modifies ma
    ensures ma.Valid() && first == second && ma.history == prices
  {
    first := ma.InitPrices(prices);
    var buf1 := ma.buf;
    second := ma.InitPrices(prices);
    assert ma.buf == buf1;
  }
}
