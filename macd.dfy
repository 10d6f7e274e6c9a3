/** `macd` (scan.js:29-42): the MACD line, a signal line approximated from the MACD
    values of the last 35 growing prefixes, and the histogram. */
module MacdIndicator {
  import opened Wrappers
  import opened Averages

  /** The number of closes `macd` needs, and the number of prefix MACD values it builds. */
  const Window: nat := 35

  /** The `{macd, signal, hist}` object; all three are `null` when history is short. */
  datatype MacdResult = MacdResult(macd: Option<real>, signal: Option<real>, hist: Option<real>)

  /** `ema(s, 12) - ema(s, 26)`: both averages lie in the range of `s`, so the line is at most its spread. */
  function MacdLine(s: seq<real>): (m: real)
    requires |s| >= 1
    ensures MinOf(s) - MaxOf(s) <= m <= MaxOf(s) - MinOf(s)
  {
    EmaValue(s, 12) - EmaValue(s, 26)
  }

  /** `macdSeries`: the MACD line of `closes.slice(0, i+1)` for the last 35 values of `i`. */
  function PrefixSeries(c: seq<real>): (ms: seq<real>)
    requires |c| >= Window
    ensures |ms| == Window
  {
    seq(Window, j requires 0 <= j < Window => MacdLine(c[..|c| - Window + j + 1]))
  }

  /** The value `macd(closes)` returns. */
  function MacdValue(c: seq<real>): (r: MacdResult)
    ensures r.macd.None? <==> |c| < Window
    ensures r.signal.None? <==> |c| < Window
    ensures r.hist.None? <==> |c| < Window
  {
    if |c| < Window then MacdResult(None, None, None)
    else
      var m := MacdLine(c);
      var s := EmaValue(PrefixSeries(c), 9);
      MacdResult(Some(m), Some(s), Some(m - s))
  }

  /** `macd(closes)`: the prefix loop pushes one MACD value per prefix into `macdSeries`. */
  method Macd(closes: seq<real>) returns (r: MacdResult)
    ensures r == MacdValue(closes)
  {
    if |closes| < Window {
      return MacdResult(None, None, None);
    }
    var ema12 := Ema(closes, 12);
    var ema26 := Ema(closes, 26);
    var m := ema12 - ema26;
    var macdSeries: seq<real> := [];
    for i := |closes| - Window to |closes|
      invariant |macdSeries| == i - (|closes| - Window)
      invariant forall j :: 0 <= j < |macdSeries| ==>
                  macdSeries[j] == MacdLine(closes[..|closes| - Window + j + 1])
    {
      var sub := closes[..i + 1];
      var e12 := Ema(sub, 12);
      var e26 := Ema(sub, 26);
      macdSeries := macdSeries + [e12 - e26];
    }
    assert macdSeries == PrefixSeries(closes);
    var s := Ema(macdSeries, 9);
    r := MacdResult(Some(m), Some(s), Some(m - s));
  }

  // ---- properties ----

  /** The prefix series ends with the MACD line of the whole series, and the histogram
      is exactly the MACD line minus the signal line. */
  lemma HistogramIsDifference(c: seq<real>)
    requires |c| >= Window
    ensures PrefixSeries(c)[Window - 1] == MacdLine(c)
    ensures MacdValue(c).macd == Some(MacdLine(c))
    ensures MacdValue(c).hist == Some(MacdValue(c).macd.value - MacdValue(c).signal.value)
  {
    assert c[..|c|] == c;
  }

  /** The signal line lies within the range of the prefix MACD values it smooths. */
  lemma SignalWithinPrefixSeries(c: seq<real>, lo: real, hi: real)
    requires |c| >= Window && Within(PrefixSeries(c), lo, hi)
    ensures lo <= MacdValue(c).signal.value <= hi
  {
    EmaWithin(PrefixSeries(c), 9, lo, hi);
  }

  /** On a flat series the MACD line, the signal line and the histogram are all zero. */
  lemma FlatIsZero(c: seq<real>, v: real)
    requires |c| >= Window && Constant(c, v)
    ensures MacdValue(c) == MacdResult(Some(0.0), Some(0.0), Some(0.0))
  {
    var ms := PrefixSeries(c);
    forall j | 0 <= j < Window ensures ms[j] == 0.0 {
      var sub := c[..|c| - Window + j + 1];
      assert ms[j] == MacdLine(sub);
      EmaConstant(sub, 12, v);
      EmaConstant(sub, 26, v);
    }
    EmaConstant(ms, 9, 0.0);
    EmaConstant(c, 12, v);
    EmaConstant(c, 26, v);
  }
}
