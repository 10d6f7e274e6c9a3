/** `rsi14` (scan.js:12-28): Wilder's relative strength index over 14 periods,
    with the source's saturating policy `rs = 100` when the average loss is zero. */
module Rsi {
  import opened Wrappers

  const Period: nat := 14

  /** What the first loop adds to `gains` for a price change `d` (a zero change counts as a gain). */
  function Gain(d: real): real { if d >= 0.0 then d else 0.0 }

  /** What the first loop adds to `losses` for a price change `d`. */
  function Loss(d: real): real { if d >= 0.0 then 0.0 else -d }

  /** `Math.max(a, b)`. */
  function Max(a: real, b: real): real { if a >= b then a else b }

  /** `gains` after the first loop has handled the changes at indices 1..j. */
  function GainSum(c: seq<real>, j: nat): (g: real)
    requires j < |c|
    ensures g >= 0.0
  {
    if j == 0 then 0.0 else GainSum(c, j - 1) + Gain(c[j] - c[j - 1])
  }

  /** `losses` after the first loop has handled the changes at indices 1..j. */
  function LossSum(c: seq<real>, j: nat): (l: real)
    requires j < |c|
    ensures l >= 0.0
  {
    if j == 0 then 0.0 else LossSum(c, j - 1) + Loss(c[j] - c[j - 1])
  }

  /** The pair of running averages `avgG`, `avgL`. */
  datatype Running = Running(gain: real, loss: real)

  /** The averages once the change at index `j` has been smoothed in: the initial
      averages over changes 1..14, then `(avg*13 + max(±diff, 0))/14` per later change.
      Both stay non-negative. */
  function Smoothed(c: seq<real>, j: nat): (a: Running)
    requires Period <= j < |c|
    ensures a.gain >= 0.0 && a.loss >= 0.0
    decreases j
  {
    if j == Period then
      Running(GainSum(c, Period) / Period as real, LossSum(c, Period) / Period as real)
    else
      var prev := Smoothed(c, j - 1);
      var diff := c[j] - c[j - 1];
      Running((prev.gain * (Period - 1) as real + Max(diff, 0.0)) / Period as real,
              (prev.loss * (Period - 1) as real + Max(-diff, 0.0)) / Period as real)
  }

  /** `100 - 100/(1+rs)` with `rs = 100` when the average loss is zero. */
  function Index(a: Running): (r: real)
    requires a.gain >= 0.0 && a.loss >= 0.0
    ensures 0.0 <= r < 100.0
    ensures a.gain == 0.0 && a.loss > 0.0 ==> r == 0.0
    ensures a.loss == 0.0 ==> r == 100.0 - 100.0 / 101.0
  {
    var rs := if a.loss == 0.0 then 100.0 else a.gain / a.loss;
    var q := 100.0 / (1.0 + rs);
    assert q * (1.0 + rs) == 100.0;
    100.0 - q
  }

  /** The value `rsi14(closes)` returns: `null` below 15 closes, else a value in `[0, 100)`. */
  function RsiValue(c: seq<real>): (r: Option<real>)
    ensures r.None? <==> |c| < Period + 1
    ensures r.Some? ==> 0.0 <= r.value < 100.0
  {
    if |c| < Period + 1 then None else Some(Index(Smoothed(c, |c| - 1)))
  }

  /** `rsi14(closes)`: the two accumulation loops, then the smoothing loop. */
  method Rsi14(closes: seq<real>) returns (r: Option<real>)
    ensures r == RsiValue(closes)
  {
    if |closes| < Period + 1 {
      return None;
    }
    var gains, losses := 0.0, 0.0;
    for i := 1 to Period + 1
      invariant gains == GainSum(closes, i - 1) && losses == LossSum(closes, i - 1)
    {
      var diff := closes[i] - closes[i - 1];
      if diff >= 0.0 {
        gains := gains + diff;
      } else {
        losses := losses + -diff;
      }
    }
    var avgG, avgL := gains / Period as real, losses / Period as real;
    for i := Period + 1 to |closes|
      invariant Running(avgG, avgL) == Smoothed(closes, i - 1)
    {
      var diff := closes[i] - closes[i - 1];
      avgG := (avgG * (Period - 1) as real + Max(diff, 0.0)) / Period as real;
      avgL := (avgL * (Period - 1) as real + Max(-diff, 0.0)) / Period as real;
    }
    var rs := if avgL == 0.0 then 100.0 else avgG / avgL;
    r := Some(100.0 - 100.0 / (1.0 + rs));
  }

  // ---- properties ----

  /** No price ever fell over the changes at indices 1..j. */
  predicate NeverFalls(c: seq<real>, j: nat)
    requires j < |c|
  {
    forall i :: 1 <= i <= j ==> c[i - 1] <= c[i]
  }

  lemma {:induction false} LossSumZero(c: seq<real>, j: nat)
    requires j < |c|
    ensures LossSum(c, j) == 0.0 <==> NeverFalls(c, j)
  {
    if j > 0 {
      LossSumZero(c, j - 1);
    }
  }

  /** The smoothed average loss is exactly zero iff no close so far was below its predecessor. */
  lemma {:induction false} AverageLossZero(c: seq<real>, j: nat)
    requires Period <= j < |c|
    ensures Smoothed(c, j).loss == 0.0 <==> NeverFalls(c, j)
    decreases j
  {
    if j == Period {
      LossSumZero(c, j);
    } else {
      AverageLossZero(c, j - 1);
    }
  }

  /** Whenever the average loss is zero the index is the saturated `100 - 100/101`, never 100. */
  lemma SaturatedWhenNoLoss(c: seq<real>)
    requires |c| >= Period + 1 && Smoothed(c, |c| - 1).loss == 0.0
    ensures RsiValue(c) == Some(100.0 - 100.0 / 101.0)
  {
  }

  /** A series that never falls, a flat one included, gives the saturated value, not 50. */
  lemma NonFallingSaturates(c: seq<real>)
    requires |c| >= Period + 1 && NeverFalls(c, |c| - 1)
    ensures RsiValue(c) == Some(100.0 - 100.0 / 101.0)
  {
    AverageLossZero(c, |c| - 1);
  }
}
