/** The object `fetchDaily` derives from a price history (scan.js:55-63) and the
    four-factor pullback rule `judge` (scan.js:67-77). */
module Judgment {
  import opened Wrappers
  import opened Averages
  import opened Rsi
  import opened MacdIndicator

  /** The per-ticker data: the null-filtered closes and volumes (not index-aligned, each
      filtered on its own), the last close and volume, and the clamped averages.
      `None` stands for the `undefined` or `NaN` an empty series produces. */
  datatype Snapshot = Snapshot(
    closes: seq<real>, volumes: seq<real>,
    close: Option<real>, sma25: Option<real>, sma75: Option<real>,
    vol: Option<real>, volAvg20: Option<real>)

  /** `.at(-1)`: the last element, `undefined` for an empty series. */
  function LastOf(s: seq<real>): (r: Option<real>)
    ensures r.Some? <==> |s| > 0
    ensures r.Some? ==> r.value == s[|s| - 1]
  {
    if s == [] then None else Some(s[|s| - 1])
  }

  /** `sma(s, Math.min(n, s.length))`: `NaN` (0/0) for an empty series; otherwise an
      average within the range of the series, and on a series of at most `n` elements
      its true mean. */
  function ClampedSma(s: seq<real>, n: nat): (r: Option<real>)
    requires n >= 1
    ensures r.Some? <==> |s| > 0
    ensures r.Some? ==> MinOf(s) <= r.value <= MaxOf(s)
    ensures r.Some? && |s| <= n ==> r.value == Sum(s) / (|s| as real)
  {
    if s == [] then None
    else
      var m := if n <= |s| then n else |s|;
      RangeOf(s);
      SmaWithin(s, m, MinOf(s), MaxOf(s));
      Some(Sma(s, m))
  }

  /** The object `fetchDaily` returns for a filtered price history: the closes drive the
      close and the two averages, the volumes the volume and its average. */
  function SnapshotOf(closes: seq<real>, volumes: seq<real>): (d: Snapshot)
    ensures d.closes == closes && d.volumes == volumes
    ensures d.close == LastOf(closes) && d.vol == LastOf(volumes)
    ensures d.sma25.Some? <==> |closes| > 0
    ensures d.sma75.Some? <==> |closes| > 0
    ensures d.volAvg20.Some? <==> |volumes| > 0
    ensures d.sma25.Some? ==> MinOf(closes) <= d.sma25.value <= MaxOf(closes)
    ensures d.sma75.Some? ==> MinOf(closes) <= d.sma75.value <= MaxOf(closes)
    ensures d.volAvg20.Some? ==> MinOf(volumes) <= d.volAvg20.value <= MaxOf(volumes)
  {
    Snapshot(closes, volumes, LastOf(closes), ClampedSma(closes, 25), ClampedSma(closes, 75),
             LastOf(volumes), ClampedSma(volumes, 20))
  }

  /** The object `judge` returns. */
  datatype Verdict = Verdict(
    rsi: Option<real>, m: Option<real>, s: Option<real>, hist: Option<real>,
    near25: bool, rsiZone: bool, macdUp: bool, volOk: bool,
    score: nat, pass: bool)

  /** `[...].filter(Boolean).length`. */
  function CountTrue(bs: seq<bool>): nat
  {
    if bs == [] then 0 else CountTrue(bs[..|bs| - 1]) + (if bs[|bs| - 1] then 1 else 0)
  }

  /** 1 for a true factor, 0 for a false one. */
  function Point(b: bool): nat { if b then 1 else 0 }

  /** The judgment given the indicator values `rsi14` and `macd` produced for `d.closes`. */
  function Assess(d: Snapshot, rsi: Option<real>, mc: MacdResult): (j: Verdict)
    ensures j.rsi == rsi && j.m == mc.macd && j.s == mc.signal && j.hist == mc.hist
    ensures j.near25 <==> d.close.Some? && d.sma25.Some? &&
                          d.sma25.value * 0.98 <= d.close.value <= d.sma25.value * 1.02
    ensures j.rsiZone <==> rsi.Some? && 28.0 <= rsi.value <= 45.0
    ensures j.macdUp <==> mc.macd.Some? && mc.signal.Some? && mc.hist.Some? && mc.hist.value > 0.0
    ensures j.volOk <==> d.volAvg20.None? || d.volAvg20.value == 0.0 ||
                         (d.vol.Some? && d.vol.value >= d.volAvg20.value * 0.9)
    ensures j.score == Point(j.near25) + Point(j.rsiZone) + Point(j.macdUp) + Point(j.volOk) <= 4
    ensures j.pass <==> j.score >= 3
  {
    var near25 := d.close.Some? && d.sma25.Some? &&
                  d.close.value >= d.sma25.value * 0.98 && d.close.value <= d.sma25.value * 1.02;
    var rsiZone := rsi.Some? && rsi.value >= 28.0 && rsi.value <= 45.0;
    var macdUp := mc.macd.Some? && mc.signal.Some? && mc.hist.Some? && mc.hist.value > 0.0;
    var volOk := if d.volAvg20.Some? && d.volAvg20.value != 0.0
                 then d.vol.Some? && d.vol.value >= d.volAvg20.value * 0.9
                 else true;
    var score := CountTrue([near25, rsiZone, macdUp, volOk]);
    CountFour(near25, rsiZone, macdUp, volOk);
    Verdict(rsi, mc.macd, mc.signal, mc.hist, near25, rsiZone, macdUp, volOk, score, score >= 3)
  }

  /** Counting four factors gives the sum of their points. */
  lemma CountFour(a: bool, b: bool, c: bool, d: bool)
    ensures CountTrue([a, b, c, d]) == Point(a) + Point(b) + Point(c) + Point(d)
  {
    assert [a, b, c, d][..3] == [a, b, c];
    assert [a, b, c][..2] == [a, b];
    assert [a, b][..1] == [a];
    assert [a][..0] == [];
    assert CountTrue([a]) == Point(a);
    assert CountTrue([a, b]) == Point(a) + Point(b);
    assert CountTrue([a, b, c]) == Point(a) + Point(b) + Point(c);
  }

  /** `judge(data)`: a pass needs three of four factors, and the RSI factor needs
      15 closes and the MACD factor 35, so no ticker with fewer than 15 closes passes. */
  function Judge(d: Snapshot): (j: Verdict)
    ensures j.score <= 4
    ensures j.pass <==> j.score >= 3
    ensures |d.closes| <= Period ==> !j.rsiZone
    ensures |d.closes| < Window ==> !j.macdUp
    ensures j.pass ==> |d.closes| > Period
  {
    Assess(d, RsiValue(d.closes), MacdValue(d.closes))
  }

  // ---- properties ----

  /** A ticker passes exactly when at most one of the four factors fails. */
  lemma PassIffAtMostOneFails(j: Verdict, d: Snapshot, rsi: Option<real>, mc: MacdResult)
    requires j == Assess(d, rsi, mc)
    ensures j.pass <==>
      (!j.near25 ==> j.rsiZone && j.macdUp && j.volOk) &&
      (!j.rsiZone ==> j.near25 && j.macdUp && j.volOk) &&
      (!j.macdUp ==> j.near25 && j.rsiZone && j.volOk) &&
      (!j.volOk ==> j.near25 && j.rsiZone && j.macdUp)
  {
  }

  /** With fewer than 35 closes MACD is `null`, so `macdUp` fails and passing needs the
      other three; with fewer than 15 RSI is `null` too, and the ticker cannot pass. */
  lemma ShortHistory(d: Snapshot)
    ensures |d.closes| < Window ==>
              !Judge(d).macdUp &&
              (Judge(d).pass <==> Judge(d).near25 && Judge(d).rsiZone && Judge(d).volOk)
    ensures |d.closes| < Period + 1 ==> !Judge(d).rsiZone && !Judge(d).pass
  {
  }

  /** The snapshot of a flat history: its close equals its 25-day average, and its
      last volume equals its 20-day average volume. */
  lemma FlatSnapshot(closes: seq<real>, c: real, volumes: seq<real>, v: real)
    requires |closes| >= 1 && Constant(closes, c)
    requires Constant(volumes, v)
    ensures SnapshotOf(closes, volumes).close == Some(c)
    ensures SnapshotOf(closes, volumes).sma25 == Some(c)
    ensures |volumes| > 0 ==> SnapshotOf(closes, volumes).vol == Some(v)
    ensures |volumes| > 0 ==> SnapshotOf(closes, volumes).volAvg20 == Some(v)
    ensures |volumes| == 0 ==> SnapshotOf(closes, volumes).volAvg20 == None
  {
    SmaConstant(closes, if 25 <= |closes| then 25 else |closes|, c);
    if |volumes| > 0 {
      SmaConstant(volumes, if 20 <= |volumes| then 20 else |volumes|, v);
    }
  }

  /** On a flat history RSI is `null` or saturated, and the histogram is `null` or 0. */
  lemma FlatIndicators(closes: seq<real>, c: real)
    requires Constant(closes, c)
    ensures RsiValue(closes).None? || RsiValue(closes).value == 100.0 - 100.0 / 101.0
    ensures MacdValue(closes).hist.None? || MacdValue(closes).hist.value == 0.0
  {
    if |closes| >= Period + 1 {
      NonFallingSaturates(closes);
    }
    if |closes| >= Window {
      FlatIsZero(closes, c);
    }
  }

  /** A flat price history at a non-negative level with flat non-negative volumes scores
      2 of 4 and does not pass: it sits on its 25-day average and its volume keeps up,
      but RSI saturates at `100 - 100/101` (outside 28..45) and the histogram is 0, not positive. */
  lemma FlatSeriesScoresTwo(closes: seq<real>, c: real, volumes: seq<real>, v: real)
    requires |closes| >= 1 && Constant(closes, c) && c >= 0.0
    requires Constant(volumes, v) && v >= 0.0
    ensures var j := Judge(SnapshotOf(closes, volumes));
      j.near25 && j.volOk && !j.rsiZone && !j.macdUp && j.score == 2 && !j.pass
  {
    var d := SnapshotOf(closes, volumes);
    FlatSnapshot(closes, c, volumes, v);
    FlatIndicators(closes, c);
    var j := Assess(d, RsiValue(closes), MacdValue(closes));
    assert j.near25 && j.volOk;
    assert !j.rsiZone && !j.macdUp;
    assert j.score == 2;
  }
}
