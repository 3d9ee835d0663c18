/**
 * The pure parts of the dashboard page: the anti-forgery cookie parser, the
 * streaming endpoint's address, and the projection of the market records onto
 * the trend chart's two series.
 */
module Dashboard {
  import opened JsStrings

  /** A JavaScript number. The model performs no arithmetic on it. */
  type Number = real

  /** One market record as the backend sends it. */
  datatype MarketData = MarketData(
    symbol: string,
    price: Number,
    volume: Number,
    change24h: Number,
    score: Number)

  /** `document.cookie` separates its rows with this. */
  const CookieSeparator: string := "; "

  /** A row holding the anti-forgery token starts with this, case-sensitively. */
  const CsrfPrefix: string := "XSRF-TOKEN="

  /**
   * The anti-forgery token read from a cookie string: the first row that
   * starts with `XSRF-TOKEN=` is split on `=` and field 1 is taken; with no
   * such row, or with an empty field, the result is `""` (never `null`).
   */
  function CsrfToken(cookie: string): string {
    var rows := Split(cookie, CookieSeparator);
    match FindWithPrefix(rows, CsrfPrefix)
    case None => ""
    case Some(i) =>
      var fields := Split(rows[i], "=");
      // `fields[1]` is `undefined` when there is no such field, and `|| ''`
      // turns both `undefined` and `""` into `""`
      if |fields| > 1 then fields[1] else ""
  }

  lemma CookieSeparatorBorderless()
    ensures |CookieSeparator| > 0 && Borderless(CookieSeparator)
  {
    assert CookieSeparator[1..] == " " && CookieSeparator[..1] == ";";
  }

  /** A row that starts with the prefix splits on `=` into its name and the fields of its value. */
  lemma {:induction false} CsrfRowFields(v: string)
    ensures Split(CsrfPrefix + v, "=") == ["XSRF-TOKEN"] + Split(v, "=")
  {
    ContainsChar("XSRF-TOKEN", '=');
    SplitAfterFree("XSRF-TOKEN", "=", v);
    assert CsrfPrefix + v == "XSRF-TOKEN" + "=" + v;
  }

  /**
   * What the parser returns: `""` when no row starts with the prefix;
   * otherwise the text that follows the prefix in the first such row, up to
   * the next `=` or the end of the row. The result never contains `=`.
   */
  lemma {:induction false} CsrfTokenSpec(cookie: string)
    ensures '=' !in CsrfToken(cookie)
    ensures var rows := Split(cookie, CookieSeparator);
      FindWithPrefix(rows, CsrfPrefix).None? ==> CsrfToken(cookie) == ""
    ensures var rows := Split(cookie, CookieSeparator);
      var token := CsrfToken(cookie);
      match FindWithPrefix(rows, CsrfPrefix)
      case None => true
      case Some(i) =>
        StartsWith(rows[i], CsrfPrefix + token) &&
        var after := rows[i][|CsrfPrefix| + |token|..];
        after == "" || after[0] == '='
  {
    var rows := Split(cookie, CookieSeparator);
    match FindWithPrefix(rows, CsrfPrefix)
    case None =>
    case Some(i) =>
      var v := rows[i][|CsrfPrefix|..];
      assert rows[i] == CsrfPrefix + v;
      CsrfRowFields(v);
      var token := Split(v, "=")[0];
      assert CsrfToken(cookie) == token;
      SplitHead(v, "=");
      ContainsChar(token, '=');
      assert rows[i][..|CsrfPrefix| + |token|] == CsrfPrefix + token;
      assert rows[i][|CsrfPrefix| + |token|..] == v[|token|..];
  }

  /**
   * A matching row with an empty value gives the same `""` as a cookie with no
   * matching row at all.
   */
  lemma CsrfEmptyValue(cookie: string)
    requires var rows := Split(cookie, CookieSeparator);
      var found := FindWithPrefix(rows, CsrfPrefix);
      found.Some? && rows[found.value] == CsrfPrefix
    ensures CsrfToken(cookie) == ""
  {
    var rows := Split(cookie, CookieSeparator);
    var i := FindWithPrefix(rows, CsrfPrefix).value;
    CsrfRowFields("");
    assert rows[i] == CsrfPrefix + "";
  }

  /**
   * For a cookie string built by joining `name=value` rows with `"; "`, where
   * row `i` is the first to start with `XSRF-TOKEN=` and its value is `v`
   * followed by nothing or by `=`-prefixed text, the parser returns exactly
   * `v`: a value holding `=` is cut at its first `=`.
   */
  lemma {:induction false} CsrfTokenOfCookieJar(rows: seq<string>, i: nat, v: string, tail: string)
    requires forall j :: 0 <= j < |rows| ==> !Contains(rows[j], CookieSeparator)
    requires i < |rows|
    requires forall j :: 0 <= j < i ==> !StartsWith(rows[j], CsrfPrefix)
    requires rows[i] == CsrfPrefix + v + tail
    requires '=' !in v
    requires tail == "" || tail[0] == '='
    ensures CsrfToken(Join(rows, CookieSeparator)) == v
  {
    CookieSeparatorBorderless();
    SplitJoin(rows, CookieSeparator);
    assert StartsWith(rows[i], CsrfPrefix) by {
      assert rows[i][..|CsrfPrefix|] == CsrfPrefix;
    }
    assert FindWithPrefix(rows, CsrfPrefix) == Some(i);
    CsrfRowValue(v, tail);
  }

  /** The value field of a matching row is the text after the prefix, up to the next `=`. */
  lemma {:induction false} CsrfRowValue(v: string, tail: string)
    requires '=' !in v
    requires tail == "" || tail[0] == '='
    ensures var fields := Split(CsrfPrefix + v + tail, "=");
      |fields| > 1 && fields[1] == v
  {
    assert CsrfPrefix + v + tail == CsrfPrefix + (v + tail);
    CsrfRowFields(v + tail);
    ContainsChar(v, '=');
    if tail == "" {
      assert v + tail == v;
      SplitFree(v, "=");
    } else {
      assert v + tail == v + "=" + tail[1..];
      SplitAfterFree(v, "=", tail[1..]);
    }
  }

  /** A cookie string whose rows all lack the prefix gives `""`. */
  lemma {:induction false} CsrfTokenOfCookieJarNoMatch(rows: seq<string>)
    requires forall j :: 0 <= j < |rows| ==> !Contains(rows[j], CookieSeparator)
    requires forall j :: 0 <= j < |rows| ==> !StartsWith(rows[j], CsrfPrefix)
    ensures CsrfToken(Join(rows, CookieSeparator)) == ""
  {
    if rows != [] {
      CookieSeparatorBorderless();
      SplitJoin(rows, CookieSeparator);
    }
  }

  /** A first matching row with nothing after the prefix gives `""`. */
  lemma CsrfTokenOfEmptyRow(rows: seq<string>, i: nat)
    requires forall j :: 0 <= j < |rows| ==> !Contains(rows[j], CookieSeparator)
    requires i < |rows|
    requires forall j :: 0 <= j < i ==> !StartsWith(rows[j], CsrfPrefix)
    requires rows[i] == CsrfPrefix
    ensures CsrfToken(Join(rows, CookieSeparator)) == ""
  {
    var none: string := [];
    assert rows[i] == CsrfPrefix + none + none;
    CsrfTokenOfCookieJar(rows, i, none, none);
  }

  /**
   * An empty token cannot be told apart from a missing one: with or without
   * the row `XSRF-TOKEN=` among rows that carry no token, the result is `""`.
   */
  lemma CsrfEmptyTokenLikeNone(before: seq<string>, after: seq<string>)
    requires forall j :: 0 <= j < |before| ==> !Contains(before[j], CookieSeparator)
    requires forall j :: 0 <= j < |after| ==> !Contains(after[j], CookieSeparator)
    requires forall j :: 0 <= j < |before| ==> !StartsWith(before[j], CsrfPrefix)
    requires forall j :: 0 <= j < |after| ==> !StartsWith(after[j], CsrfPrefix)
    ensures CsrfToken(Join(before + [CsrfPrefix] + after, CookieSeparator)) == ""
    ensures CsrfToken(Join(before + after, CookieSeparator)) == ""
  {
    var rows := before + [CsrfPrefix] + after;
    PrefixHasNoSeparator();
    forall j | 0 <= j < |rows| ensures !Contains(rows[j], CookieSeparator) {
      if j < |before| { assert rows[j] == before[j]; }
      else if j > |before| { assert rows[j] == after[j - |before| - 1]; }
    }
    forall j | 0 <= j < |before| ensures !StartsWith(rows[j], CsrfPrefix) {
      assert rows[j] == before[j];
    }
    CsrfTokenOfEmptyRow(rows, |before|);
    forall j | 0 <= j < |before + after| ensures !Contains((before + after)[j], CookieSeparator)
      && !StartsWith((before + after)[j], CsrfPrefix)
    {
      if j < |before| { assert (before + after)[j] == before[j]; }
      else { assert (before + after)[j] == after[j - |before|]; }
    }
    CsrfTokenOfCookieJarNoMatch(before + after);
  }

  /**
   * Only the exact, case-sensitive prefix counts: a row named `xsrf-token` and
   * one named `XSRF-TOKENX` are passed over, the first `XSRF-TOKEN` row wins
   * over a later one, and its value stops at its second `=`.
   */
  lemma CsrfTokenSkipsLookalikes(lower: string, longer: string, v: string, rest: string, later: string)
    requires !Contains("xsrf-token=" + lower, CookieSeparator)
    requires !Contains("XSRF-TOKENX=" + longer, CookieSeparator)
    requires !Contains(CsrfPrefix + v + "=" + rest, CookieSeparator)
    requires !Contains(CsrfPrefix + later, CookieSeparator)
    requires '=' !in v
    ensures CsrfToken(Join(["xsrf-token=" + lower, "XSRF-TOKENX=" + longer,
                            CsrfPrefix + v + "=" + rest, CsrfPrefix + later], CookieSeparator)) == v
  {
    var rows := ["xsrf-token=" + lower, "XSRF-TOKENX=" + longer, CsrfPrefix + v + "=" + rest, CsrfPrefix + later];
    assert !StartsWith(rows[0], CsrfPrefix) by { assert rows[0][0] != CsrfPrefix[0]; }
    assert !StartsWith(rows[1], CsrfPrefix) by { assert rows[1][10] != CsrfPrefix[10]; }
    assert rows[2] == CsrfPrefix + v + ("=" + rest);
    CsrfTokenOfCookieJar(rows, 2, v, "=" + rest);
  }

  lemma PrefixHasNoSeparator()
    ensures !Contains(CsrfPrefix, CookieSeparator)
  {
    NoSemicolonNoSeparator(CsrfPrefix);
  }

  /** A row without `;` cannot hold the cookie separator. */
  lemma {:induction false} NoSemicolonNoSeparator(row: string)
    requires ';' !in row
    ensures !Contains(row, CookieSeparator)
    decreases |row|
  {
    if |row| >= 2 {
      NoSemicolonNoSeparator(row[1..]);
      assert row == [row[0]] + row[1..];
      assert row[0] != ';';
    }
  }

  /**
   * The streaming endpoint: `wss:` on an `https:` page, `ws:` on any other,
   * then `//`, the page's host and `/ws`.
   */
  function WebSocketUrl(protocol: string, host: string): (url: string)
    ensures protocol == "https:" ==> url == "wss://" + host + "/ws"
    ensures protocol != "https:" ==> url == "ws://" + host + "/ws"
  {
    var wsProtocol := if protocol == "https:" then "wss:" else "ws:";
    wsProtocol + "//" + host + "/ws"
  }

  /** Whether a streaming address is secure, and its host. */
  datatype Endpoint = Endpoint(secure: bool, host: string)

  /** Reads a `wss://HOST/ws` or `ws://HOST/ws` address back. */
  function SocketEndpoint(url: string): Option<Endpoint> {
    if |url| >= 3 && url[|url| - 3..] == "/ws" then
      if StartsWith(url, "wss://") && |url| >= 9 then Some(Endpoint(true, url[6..|url| - 3]))
      else if StartsWith(url, "ws://") && |url| >= 8 then Some(Endpoint(false, url[5..|url| - 3]))
      else None
    else None
  }

  /**
   * The address determines both the page's security and its host: reading it
   * back gives `secure` exactly when the page protocol was `https:`, and the
   * host unchanged.
   */
  lemma WebSocketUrlRoundTrip(protocol: string, host: string)
    ensures SocketEndpoint(WebSocketUrl(protocol, host)) == Some(Endpoint(protocol == "https:", host))
  {
    var url := WebSocketUrl(protocol, host);
    assert url[|url| - 3..] == "/ws";
    if protocol == "https:" {
      assert url[..6] == "wss://";
      assert url[6..|url| - 3] == host;
    } else {
      assert url[..5] == "ws://";
      assert url[..6] != "wss://" by { assert url[2] == ':'; }
      assert url[5..|url| - 3] == host;
    }
  }

  /** The trend chart's data: one label and one value per record. */
  datatype ChartSeries = ChartSeries(labels: seq<string>, seriesLabel: string, data: seq<Number>)

  /** `marketData.map(d => d.symbol)` */
  function Symbols(records: seq<MarketData>): (labels: seq<string>)
    ensures |labels| == |records|
    ensures forall i :: 0 <= i < |records| ==> labels[i] == records[i].symbol
    decreases |records|
  {
    if records == [] then [] else [records[0].symbol] + Symbols(records[1..])
  }

  /** `marketData.map(d => d.score)` */
  function Scores(records: seq<MarketData>): (data: seq<Number>)
    ensures |data| == |records|
    ensures forall i :: 0 <= i < |records| ==> data[i] == records[i].score
    decreases |records|
  {
    if records == [] then [] else [records[0].score] + Scores(records[1..])
  }

  /**
   * The chart: labels and values line up position by position with the
   * records, in the records' order.
   */
  function ChartData(records: seq<MarketData>): (chart: ChartSeries)
    ensures |chart.labels| == |records| && |chart.data| == |records|
    ensures forall i :: 0 <= i < |records| ==>
      chart.labels[i] == records[i].symbol && chart.data[i] == records[i].score
    ensures chart.seriesLabel == "Profit Score"
  {
    ChartSeries(Symbols(records), "Profit Score", Scores(records))
  }

  /**
   * Two record lists draw the same chart exactly when they have the same
   * length and agree, position by position, on symbol and score; price,
   * volume and 24-hour change do not reach the chart.
   */
  lemma ChartDataSame(a: seq<MarketData>, b: seq<MarketData>)
    ensures ChartData(a) == ChartData(b) <==>
      |a| == |b| && forall i :: 0 <= i < |a| ==> a[i].symbol == b[i].symbol && a[i].score == b[i].score
  {
    var ca, cb := ChartData(a), ChartData(b);
    if |a| == |b| && forall i :: 0 <= i < |a| ==> a[i].symbol == b[i].symbol && a[i].score == b[i].score {
      assert ca.labels == cb.labels;
      assert ca.data == cb.data;
    }
    if ca == cb {
      assert |a| == |ca.labels| == |b|;
      forall i | 0 <= i < |a| ensures a[i].symbol == b[i].symbol && a[i].score == b[i].score {
        assert ca.labels[i] == cb.labels[i];
        assert ca.data[i] == cb.data[i];
      }
    }
  }
}
