# Streaming indicator engine and signal rule, modelled in Dafny

This project models the calculation core of a small trading-signal program:

- three streaming indicators, each updated in O(1) per price:
  - a simple moving average (`MovingAverage`), which keeps a bounded price
    buffer and its running sum;
  - Bollinger Bands (`BollingerBands`), which keep a bounded price buffer,
    its running sum and its running sum of squares;
  - a Wilder-smoothed Relative Strength Index (`RSI`), which keeps no buffer,
    only the two smoothed averages, the previous price and the last index;
- the stateless rule (`Strategy.generate`) that turns the price and the
  moving averages into BUY, SELL, HOLD or WAIT.

Prices and aggregates are exact `real`s.

Files:

- `window.dfy` (module `Window`) holds the shared vocabulary:
  - `LastN`: what a deque with a maximum length holds after a run of appends;
  - `Sum`, `SumSq` and `Mean`;
  - `Variance`: the clamped variance the Bollinger calculation derives from
    its two running sums;
  - `PopVariance`: the mean squared deviation, an independent reference
    definition.
- `average.dfy` (module `Average`): `MovingAverage` is a class.
  - Its `seq` field `buf` stands for the deque.
  - A ghost `history` records every price fed since the last reset or init.
  - `Valid()` ties `buf` to the newest `window` prices of `history`, `sum` to
    `Sum(buf)` and the stored average to `Mean(buf)`.
- `bands.dfy` (module `Bollinger`): `BollingerBands` is a class.
  - `Valid()` ties `sum` and `sumsq` to the buffer.
  - The band record is a datatype computed by `BandsAt`.
- `rsi.dfy` (module `RelativeStrength`): `Step` specifies one update as a pure
  function on a `State` of four optional fields. The class `Rsi`, whose fields
  are those four, is proved against it. `WarmUp` specifies the warm start.
- `strategy.dfy` (module `Strategy`): `Generate` is a pure function, like the
  source.

## Model

| member | source | states |
|---|---|---|
| Window.LastN | average.py:19 | a deque created with `maxlen=n` never holds more than n prices; it holds all of them when there are at most n, and exactly n otherwise |
| Window.DequeAppendFull | average.py:45-48 | appending to a full deque drops exactly its oldest price |
| Window.LastNSnoc | average.py:45-48 | sliding the window one price at a time keeps the newest n prices of everything fed |
| Window.LastNAppend | bb.py:20-21 | appending a run of prices to a deque gives the newest n prices of the old contents followed by the run |
| Window.SumAppend | bb.py:20-23 | the sum and the sum of squares of a concatenation are the totals of the two parts |
| Window.VarianceIsPopVariance | bb.py:44-45 | in exact arithmetic the variance taken from the running sums, max(sumsq/n - mid², 0), equals the mean squared deviation from the mean and is never negative, so the clamp never bites |
| Average.Create | average.py:15-21 | a window that is not positive is an error; otherwise the new average is valid and has seen no prices |
| Average.MovingAverage.constructor | average.py:15-21 | a fresh average has an empty buffer, a zero sum and no stored value |
| Average.MovingAverage.Reset | average.py:64-68 | the buffer is emptied, the sum is 0 and the stored average is none |
| Average.MovingAverage.InitPrices | average.py:24-37 | resets, then loads only the newest `window` prices; the result and the stored value are none for no prices, otherwise the mean of the newest `window` prices (a partial mean when there are fewer) |
| Average.MovingAverage.Update | average.py:40-53 | the oldest price leaves the running sum before the append evicts it, so `sum` stays the sum of the buffer; the result is the mean of the newest `window` prices fed since the last reset or init |
| Average.MovingAverage.Ready | average.py:56-58 | the window is full exactly when at least `window` prices have been fed |
| Average.MovingAverage.Latest | average.py:60-62 | the value stored by the last init or update: none before any price, otherwise the mean of the newest `window` prices fed |
| Average.WindowOfThree | average.py:40-53 | with window 3, feeding 1, 2, 3, 4 yields 1, 1.5, 2, 3 |
| Average.InitTwice | average.py:24-37 | calling init twice with the same prices gives the same result both times |
| Bollinger.BandsAt | bb.py:49-60 | bands at ±std, ±2·std and ±k·std around mid (upper_k = mid + k·std, lower_k = mid − k·std), ordered lower₂ ≤ lower₁ ≤ mid ≤ upper₁ ≤ upper₂; width = upper_k − lower_k = 2·k·std, which is ≥ 0 for k ≥ 0; %b is 0.5 when the width is not positive, and otherwise places the price on the k-band (lower_k + %b·width = price) |
| Bollinger.BollingerBands.constructor | bb.py:11-17 | a fresh instance has an empty buffer, zero sums and no record |
| Bollinger.BollingerBands.Push | bb.py:28-36 | on a full buffer the oldest price leaves both running sums before the append evicts it; the buffer becomes the newest `window` prices, and `sum`/`sumsq` stay those of the buffer |
| Bollinger.BollingerBands.Update | bb.py:26-74 | the record has mid = the mean of the new window and the given std, whose square is the window's population variance; it is stored in `last` and returned |
| Bollinger.BollingerBands.PushAll | bb.py:20-23 | the warm-up loop, with eviction through the running sums: the buffer ends as the newest `window` prices of old buffer + loaded prices, and the sums stay exact |
| Bollinger.BollingerBands.InitPrices | bb.py:19-24 | no reset; loads the newest `window` prices, then updates once with the newest buffered price; no result (and `last` untouched) exactly when both the buffer and the input were empty |
| Bollinger.LoadAsWritten | bb.py:20-23 | the loop as written: the buffer comes out as the newest `window` prices, but the sums are the old sums plus every loaded price, evicted or not |
| Bollinger.LoadAsWrittenWithoutEviction | bb.py:20-23 | when nothing is evicted (for example, a fresh instance) the loop as written keeps the sums exact |
| Bollinger.LoadAsWrittenLosesSums | bb.py:20-23 | with window 2, a second warm-up on [5] over the buffer [2, 2] leaves the buffer [2, 5] with sum 9 instead of 7 |
| Bollinger.EchoDropsOldest | bb.py:24 | on a fresh instance with at least `window` prices, the closing update drops the oldest loaded price and counts the newest one twice |
| Bollinger.WarmUpEcho | bb.py:19-24 | window 2, k 2 warmed up on [1, 3]: the window becomes [3, 3], the spread is zero and %b is 0.5 |
| RelativeStrength.Movement | rsi.py:35-37 | gain and loss are non-negative, at most one of them is non-zero, and gain - loss is the change |
| RelativeStrength.Smooth | rsi.py:38-42 | the first smoothing takes the raw value; later ones land between the previous average and the new value |
| RelativeStrength.RsiOf | rsi.py:45-49 | the index lies in [0, 100]; it is 100 exactly when the average loss is 0, and 0 when there is a loss but no gain |
| RelativeStrength.RsiShare | rsi.py:45-49 | with a loss, 100 - 100/(1 + gain/loss) equals 100·gain/(gain + loss) |
| RelativeStrength.Step | rsi.py:30-50 | one update keeps both averages non-negative and set together and the index within [0, 100], and records the price; it yields a value exactly when a previous price was known; the very first price leaves the averages as they were |
| RelativeStrength.Totals | rsi.py:20-23 | the upward and downward totals are non-negative and their difference is last price - first price |
| RelativeStrength.SeedDivisor | rsi.py:24 | max(1, min(period, len(pts) - 1)) is at least 1 and equals the number of deltas when there are any |
| RelativeStrength.Seeded | rsi.py:16-27 | seeding sets both averages and leaves the index alone; the previous price becomes the newest price, or none for no prices |
| RelativeStrength.WarmUpEmpty | rsi.py:16-28 | a warm-up on no prices sets both averages to 0, leaves no previous price and keeps the old index |
| RelativeStrength.WarmUpEcho | rsi.py:27-28 | a warm-up on some prices ends by feeding the newest price a second time (the echo) to the seeded state |
| RelativeStrength.EchoStep | rsi.py:35-42 | an update with the price already recorded has zero change, so each average takes one smoothing step towards zero |
| RelativeStrength.SmoothZero | rsi.py:38-42 | one smoothing step towards zero scales a set average by (p - 1)/p |
| RelativeStrength.EchoScales | rsi.py:30-50 | the echo scales both averages by (p - 1)/p, keeps the previous price and recomputes the index from the scaled averages |
| RelativeStrength.RsiScaleInvariant | rsi.py:45-49 | scaling both averages by the same positive factor leaves the index unchanged |
| RelativeStrength.EchoIndex | rsi.py:30-50 | the echo's index is 100 for period 1, and otherwise that of the averages before it |
| RelativeStrength.WarmUpIndex | rsi.py:16-28 | the first index after a warm-up is that of the seed averages for period ≥ 2, and 100 for period 1 |
| RelativeStrength.Run | rsi.py:30-50 | a run of updates keeps the state invariant, and afterwards the previous price is the last price fed |
| RelativeStrength.RisingStep | rsi.py:35-49 | an update at or above the previous price on a zero or unset loss average leaves the loss average at 0 and yields 100 |
| RelativeStrength.RisingGivesHundred | rsi.py:35-49 | on strictly rising prices the loss average stays 0 (or unset), and once a previous price is known every index is exactly 100 |
| RelativeStrength.Rsi.constructor | rsi.py:9-14 | a fresh RSI has no averages, no previous price and no index |
| RelativeStrength.Rsi.Update | rsi.py:30-50 | the new fields are `Step` of the old ones, and the returned value is the stored index, within [0, 100] |
| RelativeStrength.Rsi.InitPrices | rsi.py:16-28 | the seed loop accumulates the delta totals of the newest period + 1 prices; the new fields are `WarmUp` of the old; no value for no prices |
| RelativeStrength.RisingFromTen | rsi.py:30-50 | period 2 fed 10, 11, 12, 13 gives no value, then 100 three times |
| RelativeStrength.EchoFromThreePrices | rsi.py:16-28 | period 2 warmed up on 10, 12, 11: seed averages 1 and 0.5 are halved to 0.5 and 0.25, and the index is 200/3 |
| Strategy.Get | strategy.py:11-12 | `dict.get`: no value when the period is missing or stored without a value, otherwise the stored value |
| Strategy.Generate | strategy.py:5-30 | WAIT exactly when MA(25) has no value; otherwise BUY, SELL or HOLD exactly as the price is above, below or equal to MA(25); the price and the averages are returned unchanged |
| Strategy.ChainSignals | strategy.py:24-28 | with both averages present, price > MA25 > MA75 gives BUY and price < MA25 < MA75 gives SELL |
| Strategy.LongAverageIrrelevant | strategy.py:24-28 | changing or removing MA(75) never changes the signal: the chain override always agrees with the MA(25) comparison |
| Strategy.DecisionTable | strategy.py:14-28 | examples of BUY, SELL, HOLD and WAIT, with and without MA(75) |

## Left out

- `math.sqrt` (bb.py:46) is not modelled. `Bollinger.BollingerBands.Update` and `InitPrices` take the standard deviation as a parameter. They require it to be non-negative with square equal to the variance of the new window.
- IEEE floating point: prices and aggregates are exact reals. So the model does not capture the rounding drift of the running sums. It also does not capture the float case where the zero clamp on the variance really bites.
- The deque is a `seq` field that each method reassigns. Aliasing of the returned record or dictionary (the caller holds the same object as `last`) is not modelled.
- `Bollinger.BollingerBands.constructor`: requires `window > 0`. With window 0 the source's first update fails reading `buf[0]` of an empty deque, and a negative window makes the deque constructor raise.
- `Bollinger.BollingerBands.Update`: the `n == 0` branch (bb.py:38-41) is not modelled. It cannot be reached once the window is positive, because the buffer is never empty after the append.
- `RelativeStrength.Rsi.constructor`: requires `period >= 1`. With period 0 a fresh instance's first two updates take the branches that do not divide (rsi.py:39, 41), but the third update divides by zero (rsi.py:40), and so does the closing update of a warm-up on non-empty input. Negative periods make the seed slice and the smoothing meaningless.
- `Average.MovingAverage.constructor`: requires `window > 0`. `Average.Create` models the source's check and its error for other windows.
- fetcher.py, gui.py and sample.py (network fetching, polling loops and plotting) are not part of this model.
- main.py (threads sharing the latest price under a lock) is not part of this model.
- ai_yf_live.py and analyze_live_pred.py (model training, vectorised scoring and file output) are not part of this model.

## Findings

| source | as written | input that shows it | evidently intended | confidence | as-written member | corrected member |
|---|---|---|---|---|---|---|
| bb.py:20-23 | the warm-up loop appends through the bounded deque and adds every price to `sum` and `sumsq`, but never subtracts the price the deque evicts | window 2, warmed up on [1, 2] (buffer [2, 2], sum 4), then warmed up again on [5]: the buffer is [2, 5] but `sum` is 9, not 7, and every later mean and variance is off | evict through the running sums before each append, as `update` does (bb.py:28-31) | medium, not executed; a fresh instance loads at most `window` prices, so nothing is evicted there | Bollinger.LoadAsWrittenLosesSums | Bollinger.BollingerBands.PushAll |
