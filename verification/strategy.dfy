/** The signal rule: a stateless classifier that compares the price with the
    25-period moving average and, when the 75-period one is also known, checks
    for a strict chain price > MA25 > MA75 or price < MA25 < MA75. */
module Strategy {
  import opened Window

  datatype Signal = Buy | Sell | Hold | Wait

  /** The returned record: the signal, and the price and averages it was
      given. */
  datatype Decision = Decision(signal: Signal, price: real, ma: map<int, Option<real>>)

  /** Dictionary lookup with a default: no value both when the period is
      missing and when it is stored without a value. */
  function Get(ma: map<int, Option<real>>, period: int): (r: Option<real>)
    ensures r.Some? <==> period in ma && ma[period].Some?
    ensures r.Some? ==> r.value == ma[period].value
  {
    if period in ma then ma[period] else None
  }

  /** The decision for one price. The MA(25) comparison sets the signal; a
      strict chain through MA(75) then overrides it. */
  function Generate(price: real, ma: map<int, Option<real>>): (d: Decision)
    ensures d.price == price && d.ma == ma
    ensures d.signal == Wait <==> Get(ma, 25).None?
    ensures d.signal == Buy <==> Get(ma, 25).Some? && price > Get(ma, 25).value
    ensures d.signal == Sell <==> Get(ma, 25).Some? && price < Get(ma, 25).value
    ensures d.signal == Hold <==> Get(ma, 25).Some? && price == Get(ma, 25).value
  {
    var ma25, ma75 := Get(ma, 25), Get(ma, 75);
    var base :=
      if ma25.None? then Wait
      else if price > ma25.value then Buy
      else if price < ma25.value then Sell
      else Hold;
    var signal :=
      if ma25.Some? && ma75.Some? && price > ma25.value > ma75.value then Buy
      else if ma25.Some? && ma75.Some? && price < ma25.value < ma75.value then Sell
      else base;
    Decision(signal, price, ma)
  }

  /** Both strict chains give the signal of their direction. */
  lemma ChainSignals(price: real, ma: map<int, Option<real>>)
    requires Get(ma, 25).Some? && Get(ma, 75).Some?
    ensures price > Get(ma, 25).value > Get(ma, 75).value ==> Generate(price, ma).signal == Buy
    ensures price < Get(ma, 25).value < Get(ma, 75).value ==> Generate(price, ma).signal == Sell
  {
  }

  /** The MA(75) override never changes the signal: whatever MA(75) holds, or
      whether it is present at all, the decision is that of MA(25) alone. */
  lemma LongAverageIrrelevant(price: real, ma: map<int, Option<real>>, ma75: Option<real>)
    ensures Generate(price, ma).signal == Generate(price, ma[75 := ma75]).signal
    ensures Generate(price, ma).signal == Generate(price, ma - {75}).signal
  {
    assert Get(ma[75 := ma75], 25) == Get(ma, 25);
    assert Get(ma - {75}, 25) == Get(ma, 25);
  }

  /** Prices above, at and below an MA(25) of 100, with and without MA(75). */
  lemma DecisionTable()
    ensures Generate(101.0, map[25 := Some(100.0)]).signal == Buy
    ensures Generate(99.0, map[25 := Some(100.0), 75 := Some(98.0)]).signal == Sell
    ensures Generate(100.0, map[25 := Some(100.0), 75 := Some(90.0)]).signal == Hold
    ensures Generate(100.0, map[25 := None, 75 := Some(90.0)]).signal == Wait
    ensures Generate(100.0, map[]).signal == Wait
  {
  }
}
