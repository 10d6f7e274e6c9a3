/** The scan in `handler` (scan.js:86-110): one result per watchlist ticker, each ticker's
    failure caught on its own, the passing results kept in order, and the report lines. */
module Scanner {
  import opened Wrappers
  import opened Rsi
  import opened MacdIndicator
  import opened Judgment
  import opened Watchlist
  import opened Text

  /** What the price supplier yields for one call: the null-filtered closes and volumes,
      or the description of the error `fetchDaily` throws. */
  datatype Fetched = Fetched(closes: seq<real>, volumes: seq<real>) | FetchFailed(message: string)

  /** One entry of `results`: `{sym, ...d, ...j}` or `{sym, error}`. */
  datatype ScanResult =
    | Evaluated(sym: string, data: Snapshot, judgment: Verdict)
    | Failed(sym: string, error: string)

  /** The entry the loop body pushes for `sym`, given what `fetchDaily(sym)` yielded:
      an error entry exactly when the fetch failed, otherwise the snapshot of the fetched
      series together with the judgment `judge` gives it. */
  function Evaluate(sym: string, answer: Fetched): (r: ScanResult)
    ensures r.sym == sym
    ensures r.Failed? <==> answer.FetchFailed?
    ensures r.Failed? ==> r.error == answer.message
    ensures r.Evaluated? ==> r.data == SnapshotOf(answer.closes, answer.volumes)
    ensures r.Evaluated? ==> r.judgment == Judge(r.data)
  {
    match answer
    case FetchFailed(message) => Failed(sym, message)
    case Fetched(closes, volumes) =>
      var d := SnapshotOf(closes, volumes);
      Evaluated(sym, d, Judge(d))
  }

  /** The body of the `try` once `fetchDaily` has answered: derive the snapshot and judge
      it; the `catch` turns a failed fetch into an error entry. */
  method EvaluateTicker(sym: string, answer: Fetched) returns (r: ScanResult)
    ensures r == Evaluate(sym, answer)
  {
    match answer
    case FetchFailed(message) =>
      r := Failed(sym, message);
    case Fetched(closes, volumes) =>
      var d := SnapshotOf(closes, volumes);
      var rsi := Rsi14(d.closes);
      var mc := Macd(d.closes);
      r := Evaluated(sym, d, Assess(d, rsi, mc));
  }

  /** The `for (const sym of list)` loop: exactly one entry per ticker, in list order; the
      `i`-th call to the supplier, `fetch(i, list[i])`, decides the `i`-th entry alone, so a
      failed fetch becomes that ticker's error entry and leaves every other entry as it is. */
  method ScanTickers(list: seq<string>, fetch: (nat, string) -> Fetched)
    returns (results: seq<ScanResult>)
    ensures |results| == |list|
    ensures forall i :: 0 <= i < |list| ==> results[i] == Evaluate(list[i], fetch(i, list[i]))
    ensures Judged(results)
  {
    results := [];
    for i := 0 to |list|
      invariant |results| == i
      invariant forall k :: 0 <= k < i ==> results[k] == Evaluate(list[k], fetch(k, list[k]))
    {
      var r := EvaluateTicker(list[i], fetch(i, list[i]));
      results := results + [r];
    }
  }

  // ---- hits ----

  /** `r.pass && !r.error`: an error entry has no `pass`, so only a judged entry is a hit,
      and a judged hit scored at least 3 of 4 on at least 15 closes. */
  function IsHit(r: ScanResult): (b: bool)
    ensures b ==> r.Evaluated?
    ensures b && r.judgment == Judge(r.data) ==> r.judgment.score >= 3 && |r.data.closes| > Period
  {
    r.Evaluated? && r.judgment.pass
  }

  /** `results.filter(r => r.pass && !r.error)`. */
  function Hits(rs: seq<ScanResult>): (hs: seq<ScanResult>)
    ensures |hs| <= |rs|
    ensures forall i :: 0 <= i < |hs| ==> IsHit(hs[i]) && hs[i] in rs
  {
    if rs == [] then [] else (if IsHit(rs[0]) then [rs[0]] else []) + Hits(rs[1..])
  }

  /** The filter works entry by entry: it distributes over concatenation, which keeps order. */
  lemma {:induction false} HitsAppend(a: seq<ScanResult>, b: seq<ScanResult>)
    ensures Hits(a + b) == Hits(a) + Hits(b)
  {
    if a == [] {
      assert a + b == b;
    } else {
      assert (a + b)[1..] == a[1..] + b;
      HitsAppend(a[1..], b);
    }
  }

  /** An entry is among the hits exactly when it is a result that passed without error. */
  lemma {:induction false} HitsMembers(rs: seq<ScanResult>, r: ScanResult)
    ensures r in Hits(rs) <==> r in rs && IsHit(r)
  {
    if rs != [] {
      HitsMembers(rs[1..], r);
      assert rs == [rs[0]] + rs[1..];
    }
  }

  /** Every judged entry carries the judgment `judge` gives its snapshot, as scan entries do. */
  predicate Judged(rs: seq<ScanResult>)
  {
    forall i :: 0 <= i < |rs| && rs[i].Evaluated? ==> rs[i].judgment == Judge(rs[i].data)
  }

  /** Every hit of a scan was judged, and scored at least 3 of 4. */
  lemma HitsScoreThree(rs: seq<ScanResult>)
    requires Judged(rs)
    ensures forall h :: h in Hits(rs) ==> h.Evaluated? && h.judgment.score >= 3
  {
    forall h | h in Hits(rs) ensures h.Evaluated? && h.judgment.score >= 3 {
      HitsMembers(rs, h);
      var i :| 0 <= i < |rs| && rs[i] == h;
    }
  }

  // ---- report lines ----

  /** The fixed line sent when nothing passes. */
  const Placeholder: string := "該当なし（条件をゆるめる/銘柄を増やすと当たりやすくなります）"

  /** The text of the first line before the time stamp. */
  const HeaderOpen: string := "📉 **押し目スキャン結果** ("

  /** The first line; `stamp` is the Tokyo-time `toLocaleString` rendering, taken as given.
      It opens with the chart emoji, and the stamp can be read back from it. */
  function Header(stamp: string): (h: string)
    ensures |h| == |HeaderOpen| + |stamp| + 1
    ensures h[0] == '📉' && h[|h| - 1] == ')'
    ensures h[|HeaderOpen|..|h| - 1] == stamp
  {
    HeaderOpen + stamp + ")"
  }

  /** `x?.toFixed(digits)` inside a template: a missing value renders as `missing`
      (`undefined` for `undefined` or `null`, `NaN` for the average of an empty series,
      which `?.` does not stop); the rendering of a number is the given `toFixed`. */
  function Fixed(x: Option<real>, digits: nat, missing: string, toFixed: (real, nat) -> string): (s: string)
    ensures x.None? ==> s == missing
    ensures x.Some? ==> s == toFixed(x.value, digits)
  {
    match x
    case None => missing
    case Some(v) => toFixed(v, digits)
  }

  /** The number a string of decimal digits denotes, most significant digit first. */
  function DigitsValue(s: string): int
  {
    if s == [] then 0 else 10 * DigitsValue(s[..|s| - 1]) + (s[|s| - 1] as int - '0' as int)
  }

  /** The decimal digits of a natural number, as a template renders it. */
  function Decimal(n: nat): (s: string)
    ensures |s| >= 1
    ensures forall i :: 0 <= i < |s| ==> '0' <= s[i] <= '9'
    decreases n
  {
    var digit := ['0' + (n % 10) as char];
    if n < 10 then digit
    else
      var s := Decimal(n / 10) + digit;
      assert s[..|s| - 1] == Decimal(n / 10);
      s
  }

  /** `Decimal` renders `n` faithfully: its digits denote `n`, with no leading zero. */
  lemma {:induction false} DecimalValue(n: nat)
    ensures DigitsValue(Decimal(n)) == n
    ensures |Decimal(n)| > 1 ==> Decimal(n)[0] != '0'
    decreases n
  {
    if n >= 10 {
      var s := Decimal(n);
      DecimalValue(n / 10);
      assert s[..|s| - 1] == Decimal(n / 10);
      assert s[0] == Decimal(n / 10)[0];
    }
  }

  /** The figures of a hit line between the symbol and the score: close, 25-day average,
      RSI, MACD and signal, each rendered with `?.toFixed`. */
  function Figures(r: ScanResult, toFixed: (real, nat) -> string): string
    requires r.Evaluated?
  {
    " 終値:" + Fixed(r.data.close, 2, "undefined", toFixed) +
    "  25MA:" + Fixed(r.data.sma25, 2, "NaN", toFixed) +
    "  RSI14:" + Fixed(r.judgment.rsi, 1, "undefined", toFixed) + "  " +
    "MACD:" + Fixed(r.judgment.m, 3, "undefined", toFixed) +
    " vs Sig:" + Fixed(r.judgment.s, 3, "undefined", toFixed)
  }

  /** The line for one hit: it opens with the bulleted, bold symbol and ends with the
      score out of 4, with the figures in between. */
  function HitLine(r: ScanResult, toFixed: (real, nat) -> string): (line: string)
    requires r.Evaluated?
    ensures |line| > 0 && line[0] == '•'
    ensures "• **" + r.sym + "**" <= line
    ensures var tail := "  Score:" + Decimal(r.judgment.score) + "/4";
      |tail| <= |line| && line[|line| - |tail|..] == tail
  {
    var head := "• **" + r.sym + "**";
    var tail := "  Score:" + Decimal(r.judgment.score) + "/4";
    var line := head + Figures(r, toFixed) + tail;
    assert line[|line| - |tail|..] == tail;
    line
  }

  /** All entries are judged ones, as every hit is. */
  predicate AllEvaluated(hits: seq<ScanResult>)
  {
    forall i :: 0 <= i < |hits| ==> hits[i].Evaluated?
  }

  /** The lines after the header: one per hit, in order. */
  function HitLines(hits: seq<ScanResult>, toFixed: (real, nat) -> string): (ls: seq<string>)
    requires AllEvaluated(hits)
    ensures |ls| == |hits|
    ensures forall i :: 0 <= i < |hits| ==> ls[i] == HitLine(hits[i], toFixed)
  {
    if hits == [] then []
    else HitLines(hits[..|hits| - 1], toFixed) + [HitLine(hits[|hits| - 1], toFixed)]
  }

  /** The `lines` array the handler builds: the header first, and one line per hit or,
      with no hits, one placeholder line. */
  function ReportLines(stamp: string, hits: seq<ScanResult>, toFixed: (real, nat) -> string)
    : (lines: seq<string>)
    requires AllEvaluated(hits)
    ensures |lines| == (if |hits| == 0 then 2 else 1 + |hits|)
    ensures lines[0] == Header(stamp)
  {
    [Header(stamp)] + HitLines(hits, toFixed) + (if |hits| == 0 then [Placeholder] else [])
  }

  /** The header push, one push per hit, and the placeholder push when there are no hits. */
  method BuildLines(stamp: string, hits: seq<ScanResult>, toFixed: (real, nat) -> string)
    returns (lines: seq<string>)
    requires AllEvaluated(hits)
    ensures lines == ReportLines(stamp, hits, toFixed)
  {
    lines := [Header(stamp)];
    for i := 0 to |hits|
      invariant lines == [Header(stamp)] + HitLines(hits[..i], toFixed)
    {
      assert hits[..i + 1][..i] == hits[..i];
      lines := lines + [HitLine(hits[i], toFixed)];
    }
    assert hits[..|hits|] == hits;
    if |hits| == 0 {
      lines := lines + [Placeholder];
    }
  }

  /** The lines after the header are the hit lines in order, and the placeholder is
      among the lines exactly when there are no hits. */
  lemma ReportShape(stamp: string, hits: seq<ScanResult>, toFixed: (real, nat) -> string)
    requires AllEvaluated(hits)
    ensures var lines := ReportLines(stamp, hits, toFixed);
      && (forall i :: 0 <= i < |hits| ==> lines[i + 1] == HitLine(hits[i], toFixed))
      && (Placeholder in lines <==> |hits| == 0)
  {
    var lines := ReportLines(stamp, hits, toFixed);
    var body := HitLines(hits, toFixed);
    var extra := if |hits| == 0 then [Placeholder] else [];
    assert lines == [Header(stamp)] + body + extra;
    AfterFirst(Header(stamp), body, extra);
    if |hits| == 0 {
      assert lines[1] == Placeholder;
    } else {
      assert lines == [Header(stamp)] + body;
      NotPlaceholder(Header(stamp));
      NoPlaceholderHitLine(hits, toFixed);
    }
  }

  /** The lines between a first line and a tail sit one position further on. */
  lemma AfterFirst(first: string, middle: seq<string>, extra: seq<string>)
    ensures forall i :: 0 <= i < |middle| ==> ([first] + middle + extra)[i + 1] == middle[i]
  {
  }

  /** No hit line is the placeholder. */
  lemma NoPlaceholderHitLine(hits: seq<ScanResult>, toFixed: (real, nat) -> string)
    requires AllEvaluated(hits)
    ensures Placeholder !in HitLines(hits, toFixed)
  {
    var body := HitLines(hits, toFixed);
    forall k | 0 <= k < |body| ensures body[k] != Placeholder {
      NotPlaceholder(body[k]);
    }
  }

  /** A line opening with the chart emoji or a bullet is not the placeholder. */
  lemma NotPlaceholder(line: string)
    requires |line| > 0 && (line[0] == '📉' || line[0] == '•')
    ensures line != Placeholder
  {
    assert Placeholder[0] == '該';
  }

  /** The message body always opens with the header; with no hits it is exactly the
      header and the placeholder. */
  lemma BodyShape(stamp: string, hits: seq<ScanResult>, toFixed: (real, nat) -> string)
    requires AllEvaluated(hits)
    ensures Header(stamp) <= Join(ReportLines(stamp, hits, toFixed), '\n')
    ensures |hits| == 0 ==> Join(ReportLines(stamp, hits, toFixed), '\n') == Header(stamp) + "\n" + Placeholder
  {
    var lines := ReportLines(stamp, hits, toFixed);
    if |hits| == 0 {
      assert lines == [Header(stamp), Placeholder];
      assert Join(lines[1..], '\n') == Placeholder;
    }
  }

  // ---- the handler ----

  /** The scan part of `handler`: the body handed to `sendDiscord`, the hit count and the
      results of the response. */
  method Scan(env: Option<string>, fetch: (nat, string) -> Fetched, stamp: string,
              toFixed: (real, nat) -> string)
    returns (body: string, count: nat, results: seq<ScanResult>)
    ensures |results| == |Tickers(env)|
    ensures forall i :: 0 <= i < |results| ==>
              results[i] == Evaluate(Tickers(env)[i], fetch(i, Tickers(env)[i]))
    ensures Judged(results)
    ensures count == |Hits(results)|
    ensures body == Join(ReportLines(stamp, Hits(results), toFixed), '\n')
  {
    var list := Tickers(env);
    results := ScanTickers(list, fetch);
    var hits := Hits(results);
    var lines := BuildLines(stamp, hits, toFixed);
    body := Join(lines, '\n');
    count := |hits|;
  }
}
