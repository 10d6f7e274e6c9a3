/** The watchlist (scan.js:2 and the `filter(Boolean)` at scan.js:88): the configured
    string, or the built-in default, split on commas, each piece trimmed, empty pieces dropped. */
module Watchlist {
  import opened Wrappers
  import opened Text

  /** The list scanned when no watchlist is configured. */
  const DefaultWatchlist: string := "6758.T,9432.T,7203.T"

  /** `process.env.WATCHLIST || default`: an unset or empty setting falls back to the default. */
  function Configured(env: Option<string>): (s: string)
    ensures s != ""
    ensures env.None? || env.value == "" ==> s == DefaultWatchlist
    ensures env.Some? && env.value != "" ==> s == env.value
  {
    if env.None? || env.value == "" then DefaultWatchlist else env.value
  }

  /** The characters JavaScript's `trim` removes: WhiteSpace and LineTerminator. */
  predicate IsSpace(ch: char)
  {
    ch == '\t' || ch == '\n' || ch == '\U{000B}' || ch == '\U{000C}' || ch == '\r' ||
    ch == ' ' || ch == '\U{00A0}' || ch == '\U{1680}' || ('\U{2000}' <= ch <= '\U{200A}') ||
    ch == '\U{2028}' || ch == '\U{2029}' || ch == '\U{202F}' || ch == '\U{205F}' ||
    ch == '\U{3000}' || ch == '\U{FEFF}'
  }

  // ---- trim ----

  /** The number of whitespace characters at the front of `s`. */
  function Leading(s: string): (n: nat)
    ensures n <= |s|
    ensures forall i :: 0 <= i < n ==> IsSpace(s[i])
    ensures n < |s| ==> !IsSpace(s[n])
  {
    if s == [] || !IsSpace(s[0]) then 0 else 1 + Leading(s[1..])
  }

  /** The number of whitespace characters at the end of `s`. */
  function Trailing(s: string): (n: nat)
    ensures n <= |s|
    ensures forall i :: |s| - n <= i < |s| ==> IsSpace(s[i])
    ensures n < |s| ==> !IsSpace(s[|s| - 1 - n])
  {
    if s == [] || !IsSpace(s[|s| - 1]) then 0 else 1 + Trailing(s[..|s| - 1])
  }

  /** `s.trim()`: `s` without its leading and trailing whitespace. */
  function Trim(s: string): (r: string)
    ensures Trimmed(r)
    ensures |r| <= |s|
  {
    var t := s[Leading(s)..];
    var r := t[..|t| - Trailing(t)];
    assert r != [] ==> r[0] == t[0];
    r
  }

  /** A trimmed string neither starts nor ends with whitespace. */
  predicate Trimmed(t: string)
  {
    t == [] || (!IsSpace(t[0]) && !IsSpace(t[|t| - 1]))
  }

  /** `trim` removes exactly the whitespace at both ends: the input is some whitespace,
      then the result, then some whitespace, and the result is trimmed. */
  lemma TrimSpec(s: string)
    ensures exists i, j ::
              && 0 <= i <= j <= |s| && Trim(s) == s[i..j]
              && (forall k :: 0 <= k < i ==> IsSpace(s[k]))
              && (forall k :: j <= k < |s| ==> IsSpace(s[k]))
  {
    var i := Leading(s);
    var t := s[i..];
    var n := Trailing(t);
    var j := |s| - n;
    assert Trim(s) == s[i..j];
    forall k | j <= k < |s| ensures IsSpace(s[k]) {
      assert s[k] == t[k - i];
    }
  }

  /** A trimmed string is left unchanged by `trim`: trimming twice is trimming once. */
  lemma TrimFixesTrimmed(t: string)
    requires Trimmed(t)
    ensures Trim(t) == t
  {
  }

  lemma TrimIdempotent(s: string)
    ensures Trim(Trim(s)) == Trim(s)
  {
    TrimSpec(s);
    TrimFixesTrimmed(Trim(s));
  }

  lemma TrimBlank(s: string)
    requires forall k :: 0 <= k < |s| ==> IsSpace(s[k])
    ensures Trim(s) == ""
  {
    LeadingAllSpace(s);
  }

  lemma {:induction false} LeadingAllSpace(s: string)
    requires forall k :: 0 <= k < |s| ==> IsSpace(s[k])
    ensures Leading(s) == |s|
  {
    if s != [] {
      LeadingAllSpace(s[1..]);
    }
  }

  // ---- map(trim) and filter(Boolean) ----

  /** `map(s => s.trim())`. */
  function TrimEach(parts: seq<string>): (r: seq<string>)
    ensures |r| == |parts|
    ensures forall i :: 0 <= i < |r| ==> r[i] == Trim(parts[i])
  {
    if parts == [] then [] else [Trim(parts[0])] + TrimEach(parts[1..])
  }

  /** `filter(Boolean)` on strings: keep the non-empty ones, in order. */
  function DropEmpty(xs: seq<string>): (r: seq<string>)
    ensures |r| <= |xs|
    ensures forall i :: 0 <= i < |r| ==> r[i] != "" && r[i] in xs
    ensures forall i :: 0 <= i < |xs| && xs[i] != "" ==> xs[i] in r
  {
    if xs == [] then [] else (if xs[0] == "" then [] else [xs[0]]) + DropEmpty(xs[1..])
  }

  lemma {:induction false} DropEmptyAppend(a: seq<string>, b: seq<string>)
    ensures DropEmpty(a + b) == DropEmpty(a) + DropEmpty(b)
  {
    if a == [] {
      assert a + b == b;
    } else {
      assert (a + b)[1..] == a[1..] + b;
      DropEmptyAppend(a[1..], b);
    }
  }

  lemma TrimEachAppend(a: seq<string>, b: seq<string>)
    ensures TrimEach(a + b) == TrimEach(a) + TrimEach(b)
  {
  }

  /** A ticker as the parser yields it: non-empty, comma-free and trimmed. */
  predicate Plain(s: string)
  {
    s != "" && ',' !in s && Trimmed(s)
  }

  /** `split(",").map(s => s.trim()).filter(Boolean)`: the trimmed, non-empty pieces, in order. */
  function Parse(s: string): (list: seq<string>)
    ensures forall i :: 0 <= i < |list| ==> Plain(list[i])
  {
    var parts := Split(s, ',');
    var list := DropEmpty(TrimEach(parts));
    forall i | 0 <= i < |list| ensures Trimmed(list[i]) && ',' !in list[i] {
      var k :| 0 <= k < |parts| && list[i] == Trim(parts[k]);
      TrimSpec(parts[k]);
    }
    list
  }

  /** The tickers scanned for a configuration: `WATCHLIST.filter(Boolean)`. */
  function Tickers(env: Option<string>): (list: seq<string>)
    ensures forall i :: 0 <= i < |list| ==> Plain(list[i])
    ensures env.None? || env.value == "" ==> list == Parse(DefaultWatchlist)
    ensures env.Some? && env.value != "" ==> list == Parse(env.value)
  {
    Parse(Configured(env))
  }

  // ---- properties of the watchlist ----

  /** An unset or empty setting scans the three built-in tickers. */
  lemma DefaultTickers(env: Option<string>)
    requires env.None? || env == Some("")
    ensures Tickers(env) == ["6758.T", "9432.T", "7203.T"]
  {
    var list := ["6758.T", "9432.T", "7203.T"];
    assert Join(list, ',') == DefaultWatchlist;
    ParseJoin(list);
  }

  /** Parsing inverts joining: plain tickers joined with commas parse back to the same list. */
  lemma {:induction false} ParseJoin(xs: seq<string>)
    requires |xs| >= 1 && forall i :: 0 <= i < |xs| ==> Plain(xs[i])
    ensures Parse(Join(xs, ',')) == xs
  {
    PlainTicker(xs[0]);
    if |xs| > 1 {
      ParseJoin(xs[1..]);
      ParseAtComma(xs[0], Join(xs[1..], ','));
    }
  }

  /** Order and duplicates are kept: the tickers of `a,b` are those of `a` followed by those of `b`. */
  lemma ParseAtComma(a: string, b: string)
    ensures Parse(a + "," + b) == Parse(a) + Parse(b)
  {
    SplitAtSeparator(a, b, ',');
    TrimEachAppend(Split(a, ','), Split(b, ','));
    DropEmptyAppend(TrimEach(Split(a, ',')), TrimEach(Split(b, ',')));
  }

  /** Text without commas is one ticker, trimmed, unless it is blank. */
  lemma SingleTicker(s: string)
    requires ',' !in s
    ensures Parse(s) == if Trim(s) == "" then [] else [Trim(s)]
  {
    SplitWithoutSeparator(s, ',');
  }

  /** Comma-free, trimmed, non-empty text is exactly one ticker. */
  lemma PlainTicker(s: string)
    requires Plain(s)
    ensures Parse(s) == [s]
  {
    SingleTicker(s);
    TrimFixesTrimmed(s);
  }

  /** A setting of only commas and whitespace scans nothing: it is not replaced by the default. */
  lemma {:induction false} BlankSettingScansNothing(s: string)
    requires s != ""
    requires forall k :: 0 <= k < |s| ==> s[k] == ',' || IsSpace(s[k])
    ensures Tickers(Some(s)) == []
  {
    assert Tickers(Some(s)) == Parse(s);
    var parts := Split(s, ',');
    forall p | p in parts ensures Trim(p) == "" {
      BlankPieces(s);
      TrimBlank(p);
    }
    NoneLeft(TrimEach(parts));
  }

  lemma {:induction false} BlankPieces(s: string)
    requires forall k :: 0 <= k < |s| ==> s[k] == ',' || IsSpace(s[k])
    ensures forall p, k :: p in Split(s, ',') && 0 <= k < |p| ==> IsSpace(p[k])
  {
    if s != [] {
      BlankPieces(s[1..]);
    }
  }

  lemma {:induction false} NoneLeft(xs: seq<string>)
    requires forall i :: 0 <= i < |xs| ==> xs[i] == ""
    ensures DropEmpty(xs) == []
  {
    if xs != [] {
      NoneLeft(xs[1..]);
    }
  }
}
