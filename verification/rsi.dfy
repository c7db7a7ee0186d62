/** Relative Strength Index with Wilder smoothing, updated in O(1) per price.
    `State` and `Step` are the specification of one update; the class `Rsi`
    keeps the same four fields and is proved against them. */
module RelativeStrength {
  import opened Window

  /** The fields an update reads and writes; the averages are unset until the
      first smoothing step or a warm-up. */
  datatype State = State(
    avgGain: Option<real>,
    avgLoss: Option<real>,
    prevPrice: Option<real>,
    last: Option<real>)

  /** What every reachable state satisfies. */
  ghost predicate Inv(s: State)
  {
    (s.avgGain.Some? <==> s.avgLoss.Some?) &&
    (s.avgGain.Some? ==> s.avgGain.value >= 0.0) &&
    (s.avgLoss.Some? ==> s.avgLoss.value >= 0.0) &&
    (s.last.Some? ==> 0.0 <= s.last.value <= 100.0)
  }

  /** A price change split into its upward and downward parts. */
  function Movement(change: real): (m: (real, real))
    ensures m.0 >= 0.0 && m.1 >= 0.0
    ensures m.0 == 0.0 || m.1 == 0.0
    ensures m.0 - m.1 == change
  {
    (if change > 0.0 then change else 0.0, if change < 0.0 then -change else 0.0)
  }

  /** Wilder smoothing with period p; the first step takes the raw value. The
      result lies between the previous average and the new value. */
  function Smooth(avg: Option<real>, x: real, p: int): (r: real)
    requires p >= 1
    ensures avg.None? ==> r == x
    ensures avg.Some? ==> (avg.value <= r <= x) || (x <= r <= avg.value)
  {
    match avg
    case None => x
    case Some(a) =>
      assert (a * (p - 1) as real + x) / p as real == a + (x - a) / p as real;
      (a * (p - 1) as real + x) / p as real
  }

  /** The index from the two averages: 100 when there is no loss, otherwise
      100 - 100 / (1 + gain/loss). */
  function RsiOf(avgGain: real, avgLoss: real): (r: real)
    requires avgGain >= 0.0 && avgLoss >= 0.0
    ensures 0.0 <= r <= 100.0
    ensures avgLoss == 0.0 <==> r == 100.0
    ensures avgGain == 0.0 && avgLoss > 0.0 ==> r == 0.0
  {
    if avgLoss == 0.0 then 100.0
    else
      var rs := avgGain / avgLoss;
      RsiAlgebra(avgGain, avgLoss);
      100.0 - 100.0 / (1.0 + rs)
  }

  /** With a loss, the index is the gain's share of the total movement:
      100 * gain / (gain + loss). */
  lemma RsiShare(g: real, l: real)
    requires g >= 0.0 && l > 0.0
    ensures RsiOf(g, l) * (g + l) == 100.0 * g
  {
    RsiAlgebra(g, l);
  }

  /** With rs = g/l and l > 0: 100 - 100/(1 + rs) is 100g/(g + l). */
  lemma RsiAlgebra(g: real, l: real)
    requires g >= 0.0 && l > 0.0
    ensures var w := 100.0 / (1.0 + g / l);
      0.0 < w <= 100.0 && (100.0 - w) * (g + l) == 100.0 * g
  {
    var q := 1.0 + g / l;
    assert (g / l) * l == g;
    assert q * l == l + g;
    assert q >= 1.0;
    var w := 100.0 / q;
    assert w * q == 100.0;
    assert w <= 100.0 by {
      assert w * q >= w * 1.0;
    }
    calc {
      (100.0 - w) * (g + l);
      (100.0 - w) * (q * l);
      100.0 * (q * l) - (w * q) * l;
      100.0 * (g + l) - 100.0 * l;
    }
  }

  /** One update. The first price ever only records itself and yields no
      value; every later one smooths its gain and loss into the averages,
      records itself and yields the index. */
  function Step(p: int, s: State, price: real): (t: State)
    requires p >= 1 && Inv(s)
    ensures Inv(t) && t.prevPrice == Some(price)
    ensures t.last.Some? <==> s.prevPrice.Some?
    ensures s.prevPrice.None? ==> t.avgGain == s.avgGain && t.avgLoss == s.avgLoss
  {
    match s.prevPrice
    case None => s.(prevPrice := Some(price), last := None)
    case Some(prev) =>
      var (gain, loss) := Movement(price - prev);
      var g := Smooth(s.avgGain, gain, p);
      var l := Smooth(s.avgLoss, loss, p);
      State(Some(g), Some(l), Some(price), Some(RsiOf(g, l)))
  }

  /** Totals of the upward and downward moves between consecutive prices. */
  function Totals(pts: seq<real>): (t: (real, real))
    ensures t.0 >= 0.0 && t.1 >= 0.0
    ensures |pts| > 0 ==> t.0 - t.1 == pts[|pts| - 1] - pts[0]
  {
    if |pts| < 2 then (0.0, 0.0)
    else
      var (g, l) := Totals(pts[..|pts| - 1]);
      var d := pts[|pts| - 1] - pts[|pts| - 2];
      if d >= 0.0 then (g + d, l) else (g, l - d)
  }

  /** The seed window: the newest p + 1 prices, or all of them. */
  function SeedPoints(p: int, prices: seq<real>): seq<real>
    requires p >= 1
  {
    LastN(prices, p + 1)
  }

  /** The divisor of the seed averages, max(1, min(p, deltas)). */
  function SeedDivisor(p: int, count: nat): (n: int)
    requires p >= 1 && count <= p + 1
    ensures n >= 1
    ensures count >= 2 ==> n == count - 1
  {
    var m := if p <= count - 1 then p else count - 1;
    if m >= 1 then m else 1
  }

  /** The state after the warm-up's seeding, before its closing update. */
  function Seeded(p: int, s: State, prices: seq<real>): (t: State)
    requires p >= 1
    ensures t.avgGain.Some? && t.avgLoss.Some? && t.last == s.last
    ensures t.prevPrice == if prices == [] then None else Some(prices[|prices| - 1])
    ensures Inv(s) ==> Inv(t)
  {
    var pts := SeedPoints(p, prices);
    var (g, l) := Totals(pts);
    var n := SeedDivisor(p, |pts|) as real;
    State(Some(g / n), Some(l / n), if pts == [] then None else Some(pts[|pts| - 1]), s.last)
  }

  /** The warm-up: seed, then feed the newest seed price through one update. */
  function WarmUp(p: int, s: State, prices: seq<real>): State
    requires p >= 1 && Inv(s)
  {
    var t := Seeded(p, s, prices);
    if t.prevPrice.None? then t else Step(p, t, t.prevPrice.value)
  }

  /** An update with the price already recorded has zero change: both
      averages take one smoothing step towards zero. */
  lemma EchoStep(p: int, s: State)
    requires p >= 1 && Inv(s) && s.prevPrice.Some?
    ensures var t := Step(p, s, s.prevPrice.value);
      t.prevPrice == s.prevPrice &&
      t.avgGain == Some(Smooth(s.avgGain, 0.0, p)) &&
      t.avgLoss == Some(Smooth(s.avgLoss, 0.0, p)) &&
      t.last == Some(RsiOf(t.avgGain.value, t.avgLoss.value))
  {
    assert Movement(0.0) == (0.0, 0.0);
  }

  /** The factor one zero-change smoothing step applies to an average. */
  function EchoFactor(p: int): (c: real)
    requires p >= 1
    ensures 0.0 <= c < 1.0 && (c == 0.0 <==> p == 1)
  {
    (p - 1) as real / p as real
  }

  /** Smoothing a set average with a zero value scales it by EchoFactor(p). */
  lemma SmoothZero(avg: Option<real>, p: int)
    requires p >= 1 && avg.Some?
    ensures Smooth(avg, 0.0, p) == EchoFactor(p) * avg.value
  {
    var q, a := p as real, avg.value;
    assert Smooth(avg, 0.0, p) == (a * (q - 1.0) + 0.0) / q;
    assert (a * (q - 1.0)) / q == ((q - 1.0) / q) * a;
  }

  /** A warm-up on no prices leaves zero averages, no previous price and the
      old index. */
  lemma WarmUpEmpty(p: int, s: State)
    requires p >= 1 && Inv(s)
    ensures WarmUp(p, s, []) == State(Some(0.0), Some(0.0), None, s.last)
  {
    assert SeedPoints(p, []) == [];
  }

  /** Otherwise the warm-up's closing update echoes the newest price with a
      zero change, which scales both seed averages by EchoFactor(p). */
  lemma WarmUpEcho(p: int, s: State, prices: seq<real>)
    requires p >= 1 && Inv(s) && prices != []
    ensures WarmUp(p, s, prices) == Step(p, Seeded(p, s, prices), prices[|prices| - 1])
  {
  }

  /** The echo scales both set averages by EchoFactor(p) and recomputes the
      index from them. */
  lemma EchoScales(p: int, s: State)
    requires p >= 1 && Inv(s) && s.prevPrice.Some? && s.avgGain.Some?
    ensures Step(p, s, s.prevPrice.value).prevPrice == s.prevPrice
    ensures Step(p, s, s.prevPrice.value).avgGain == Some(EchoFactor(p) * s.avgGain.value)
    ensures Step(p, s, s.prevPrice.value).avgLoss == Some(EchoFactor(p) * s.avgLoss.value)
    ensures Step(p, s, s.prevPrice.value).last
            == Some(RsiOf(EchoFactor(p) * s.avgGain.value, EchoFactor(p) * s.avgLoss.value))
  {
    var w := Step(p, s, s.prevPrice.value);
    EchoStep(p, s);
    assert w.avgGain == Some(Smooth(s.avgGain, 0.0, p));
    assert w.avgLoss == Some(Smooth(s.avgLoss, 0.0, p));
    SmoothZero(s.avgGain, p);
    SmoothZero(s.avgLoss, p);
    assert w.avgGain.value == EchoFactor(p) * s.avgGain.value;
    assert w.avgLoss.value == EchoFactor(p) * s.avgLoss.value;
  }

  /** Scaling both averages by the same positive factor leaves the index
      unchanged. */
  lemma RsiScaleInvariant(g: real, l: real, c: real)
    requires g >= 0.0 && l >= 0.0 && c > 0.0
    ensures RsiOf(c * g, c * l) == RsiOf(g, l)
  {
    if l > 0.0 {
      var r1, r2 := RsiOf(c * g, c * l), RsiOf(g, l);
      RsiShare(c * g, c * l);
      RsiShare(g, l);
      assert r1 * (c * g + c * l) == 100.0 * c * g;
      assert c * (r1 * (g + l)) == c * (100.0 * g);
      assert r1 * (g + l) == 100.0 * g;
      assert r1 == 100.0 * g / (g + l) == r2;
    }
  }

  /** For a period of at least 2 the echo does not move the first index: it is
      the index of the seed averages. For period 1 it wipes both averages and
      the index is 100. */
  lemma WarmUpIndex(p: int, s: State, prices: seq<real>)
    requires p >= 1 && Inv(s) && prices != []
    ensures var seed := Seeded(p, s, prices);
      WarmUp(p, s, prices).last ==
        if p == 1 then Some(100.0) else Some(RsiOf(seed.avgGain.value, seed.avgLoss.value))
  {
    WarmUpEcho(p, s, prices);
    EchoIndex(p, Seeded(p, s, prices));
  }

  /** The echo's index: 100 for period 1, else that of the averages before it. */
  lemma EchoIndex(p: int, s: State)
    requires p >= 1 && Inv(s) && s.prevPrice.Some? && s.avgGain.Some?
    ensures Step(p, s, s.prevPrice.value).last ==
      if p == 1 then Some(100.0) else Some(RsiOf(s.avgGain.value, s.avgLoss.value))
  {
    EchoScales(p, s);
    if p == 1 {
      assert EchoFactor(p) * s.avgLoss.value == 0.0;
    } else {
      var w := Step(p, s, s.prevPrice.value);
      assert w.last == Some(RsiOf(EchoFactor(p) * s.avgGain.value, EchoFactor(p) * s.avgLoss.value));
      RsiScaleInvariant(s.avgGain.value, s.avgLoss.value, EchoFactor(p));
      assert RsiOf(EchoFactor(p) * s.avgGain.value, EchoFactor(p) * s.avgLoss.value)
          == RsiOf(s.avgGain.value, s.avgLoss.value);
    }
  }

  /** Feeding prices one update at a time. */
  function Run(p: int, s: State, prices: seq<real>): (t: State)
    requires p >= 1 && Inv(s)
    ensures Inv(t)
    ensures prices != [] ==> t.prevPrice == Some(prices[|prices| - 1])
  {
    if prices == [] then s
    else Step(p, Run(p, s, prices[..|prices| - 1]), prices[|prices| - 1])
  }

  ghost predicate StrictlyIncreasing(prices: seq<real>)
  {
    forall i, j :: 0 <= i < j < |prices| ==> prices[i] < prices[j]
  }

  /** On rising prices the average loss stays zero (or unset) and, once a
      previous price is known, the index is exactly 100. */
  lemma {:induction false} RisingGivesHundred(p: int, s: State, prices: seq<real>)
    requires p >= 1 && Inv(s)
    requires StrictlyIncreasing(prices)
    requires s.avgLoss == None || s.avgLoss == Some(0.0)
    requires prices != [] && s.prevPrice.Some? ==> s.prevPrice.value <= prices[0]
    ensures var t := Run(p, s, prices);
      (t.avgLoss == None || t.avgLoss == Some(0.0)) &&
      (|prices| >= (if s.prevPrice.Some? then 1 else 2) ==> t.last == Some(100.0))
  {
    if prices != [] {
      var front, x := prices[..|prices| - 1], prices[|prices| - 1];
      assert StrictlyIncreasing(front);
      RisingGivesHundred(p, s, front);
      var u := Run(p, s, front);
      assert Run(p, s, prices) == Step(p, u, x);
      if u.prevPrice.Some? {
        assert u.prevPrice.value <= x by {
          if front != [] {
            assert u.prevPrice == Some(prices[|prices| - 2]);
          } else {
            assert u == s;
          }
        }
        RisingStep(p, u, x);
      } else {
        assert front == [] && u == s;
      }
    }
  }

  /** One update on a price at or above the previous one adds no loss. */
  lemma RisingStep(p: int, u: State, x: real)
    requires p >= 1 && Inv(u) && u.prevPrice.Some? && u.prevPrice.value <= x
    requires u.avgLoss == None || u.avgLoss == Some(0.0)
    ensures Step(p, u, x).avgLoss == Some(0.0) && Step(p, u, x).last == Some(100.0)
  {
    var m := Movement(x - u.prevPrice.value);
    assert m.1 == 0.0;
    var l := Smooth(u.avgLoss, m.1, p);
    assert l == 0.0;
    var g := Smooth(u.avgGain, m.0, p);
    assert Step(p, u, x) == State(Some(g), Some(l), Some(x), Some(RsiOf(g, l)));
  }

  class Rsi {
    const period: int
    var avgGain: Option<real>
    var avgLoss: Option<real>
    var prevPrice: Option<real>
    var last: Option<real>

    function Current(): State
      reads this
    {
      State(avgGain, avgLoss, prevPrice, last)
    }

    ghost predicate Valid()
      reads this
    {
      period >= 1 && Inv(Current())
    }

    constructor (period: int)
      requires period >= 1
      ensures Valid() && this.period == period
      ensures Current() == State(None, None, None, None)
    {
      this.period := period;
      avgGain, avgLoss, prevPrice, last := None, None, None, None;
    }

    /** One price: the new state is `Step` of the old, and the returned value
        is the stored index, within [0, 100]. */
    method Update(price: real) returns (r: Option<real>)
      requires Valid()
      modifies this
      ensures Valid() && Current() == Step(period, old(Current()), price)
      ensures r == last && (r.Some? ==> 0.0 <= r.value <= 100.0)
    {
      if prevPrice.None? {
        prevPrice := Some(price);
        last := None;
        return None;
      }
      var change := price - prevPrice.value;
      var gain := if change > 0.0 then change else 0.0;
      var loss := if change < 0.0 then -change else 0.0;
      var p := period;
      avgGain := Some(Smooth(avgGain, gain, p));
      avgLoss := Some(Smooth(avgLoss, loss, p));
      prevPrice := Some(price);
      last := Some(RsiOf(avgGain.value, avgLoss.value));
      r := last;
    }

    /** Warm start from the newest period + 1 prices, then one echo update;
        no value for no prices. */
    method InitPrices(prices: seq<real>) returns (r: Option<real>)
      requires Valid()
      modifies this
      ensures Valid() && Current() == WarmUp(period, old(Current()), prices)
      ensures r == if prices == [] then None else last
    {
      var pts := SeedPoints(period, prices);
      var gains, losses := 0.0, 0.0;
      var i := 1;
      while i < |pts|
        invariant 1 <= i && (pts == [] || i <= |pts|)
        invariant (gains, losses) == Totals(if pts == [] then [] else pts[..i])
      {
        assert pts[..i + 1][..i] == pts[..i];
        var d := pts[i] - pts[i - 1];
        if d >= 0.0 {
          gains := gains + d;
        } else {
          losses := losses - d;
        }
        i := i + 1;
      }
      assert pts != [] ==> pts[..i] == pts;
      var n := SeedDivisor(period, |pts|);
      avgGain := Some(gains / n as real);
      avgLoss := Some(losses / n as real);
      prevPrice := if pts == [] then None else Some(pts[|pts| - 1]);
      if prevPrice.Some? {
        r := Update(prevPrice.value);
      } else {
        r := None;
      }
    }
  }

  /** Period 2 fed 10, 11, 12, 13: no value, then 100 three times. */
  method RisingFromTen() returns (outs: seq<Option<real>>)
    ensures outs == [None, Some(100.0), Some(100.0), Some(100.0)]
  {
    var rsi := new Rsi(2);
    var a := rsi.Update(10.0);
    var b := rsi.Update(11.0);
    var c := rsi.Update(12.0);
    var d := rsi.Update(13.0);
    outs := [a, b, c, d];
  }

  /** Period 2 warmed up on 10, 12, 11: seed averages 1 and 0.5, halved by the
      echo to 0.5 and 0.25; the index is 200/3 either way. */
  method EchoFromThreePrices() returns (r: Option<real>, gain: Option<real>, loss: Option<real>)
    ensures r == Some(200.0 / 3.0) && gain == Some(0.5) && loss == Some(0.25)
  {
    var rsi := new Rsi(2);
    assert SeedPoints(2, [10.0, 12.0, 11.0]) == [10.0, 12.0, 11.0];
    assert [10.0, 12.0, 11.0][..2] == [10.0, 12.0];
    assert [10.0, 12.0] [..1] == [10.0];
    assert Totals([10.0, 12.0, 11.0]) == (2.0, 1.0);
    r := rsi.InitPrices([10.0, 12.0, 11.0]);
    gain, loss := rsi.avgGain, rsi.avgLoss;
  }
}
