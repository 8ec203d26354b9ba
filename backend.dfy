/**
 * The price endpoint of the dashboard's API server: validation of the coin id
 * and the range against two fixed tables, the Binance kline query those select,
 * and the shaping of Binance's candles into a price history.
 *
 * The two Binance calls (klines and the 24-hour ticker) are parameters: total
 * functions from the request to the reply, so that every property below holds
 * whatever Binance answers.
 */
module Backend {
  import opened Options
  import opened Numerals

  /** One point of the price history sent to the dashboard. */
  datatype PricePoint = PricePoint(time: int, price: real)

  /**
   * One kline as Binance sends it. Only the open time (field 0) and the close
   * price (field 4) are read; the other fields are not modelled.
   */
  datatype Candle = Candle(openTime: int, close: real)

  /** The body of the 24-hour ticker reply; `quoteVolume` may be absent. */
  datatype TickerBody = TickerBody(quoteVolume: Option<real>)

  /** An HTTP reply, or a transport failure (timeout, refused connection). */
  datatype Reply<+T> = Reply(status: nat, body: T) | TransportError

  /** The query parameters of the klines request. */
  datatype KlinesQuery = KlinesQuery(symbol: string, interval: string, limit: nat)

  /** One entry of the range table; `days` and `hours` stand for Python's None or an int. */
  datatype RangeConfig = RangeConfig(days: Option<nat>, hours: Option<nat>, interval: string)

  /** The successful reply of the endpoint. */
  datatype PriceResult = PriceResult(
    coin: string,
    range: string,
    history: seq<PricePoint>,
    volume24h: real,
    source: string,
    dataPoints: nat)

  /** What the fetch raises instead of returning. */
  datatype FetchError = TransportFailed | BadReply(klinesStatus: nat)

  /** The endpoint's answer: the result, or an HTTP error with its detail text. */
  datatype ApiResponse = Found(body: PriceResult) | HttpError(status: nat, detail: string)

  /** Internal coin id to Binance trading pair. */
  const CoinMapping: map<string, string> :=
    map["bitcoin" := "BTCUSDT", "ethereum" := "ETHUSDT", "solana" := "SOLUSDT"]

  /** The supported ranges, each with its length and internal interval code. */
  const TimeRanges: map<string, RangeConfig> :=
    map[
      "1h" := RangeConfig(None, Some(1), "m5"),
      "6h" := RangeConfig(None, Some(6), "m15"),
      "24h" := RangeConfig(Some(1), None, "h1"),
      "7d" := RangeConfig(Some(7), None, "h4"),
      "30d" := RangeConfig(Some(30), None, "d1")
    ]

  /** Internal interval code to Binance interval notation. */
  const BinanceIntervals: map<string, string> :=
    map["m5" := "5m", "m15" := "15m", "h1" := "1h", "h4" := "4h", "d1" := "1d"]

  /** The range used when the request has no `range` query parameter. */
  const DefaultRange := "24h"

  /** Binance refuses a klines request for more than this many candles. */
  const MaxKlines := 1000

  const InvalidCoinDetail := "Invalid coin_id. Must be one of: ['bitcoin', 'ethereum', 'solana']"
  const InvalidRangeDetail := "Invalid range. Must be one of: ['1h', '6h', '24h', '7d', '30d']"
  const UnavailableDetail := "Unable to fetch cryptocurrency data from Binance"

  /** Python truthiness of an optional int: present and non-zero. */
  predicate Truthy(v: Option<nat>) {
    v.Some? && v.value != 0
  }

  function RangeOrDefault(param: Option<string>): (range: string)
    ensures param.None? ==> range == DefaultRange
    ensures param.Some? ==> range == param.value
  {
    param.GetOr(DefaultRange)
  }

  /** The Binance interval for an internal code; an unknown code falls back to one hour. */
  function BinanceInterval(code: string): (interval: string)
    ensures code in BinanceIntervals ==> interval == BinanceIntervals[code]
    ensures code !in BinanceIntervals ==> interval == "1h"
    ensures interval in BinanceIntervals.Values
  {
    assert BinanceIntervals["h1"] == "1h";
    if code in BinanceIntervals then BinanceIntervals[code] else "1h"
  }

  /** The number of candles requested for a range: the if/elif chain of the source. */
  function Limit(cfg: RangeConfig): (limit: nat)
    ensures 12 <= limit <= 42
  {
    if Truthy(cfg.days) then
      if cfg.days.value == 1 then 24
      else if cfg.days.value == 7 then 42
      else 30
    else
      if cfg.hours == Some(1) then 12
      else 24
  }

  /** The klines request issued for a pair and a range. */
  function KlinesQueryFor(symbol: string, cfg: RangeConfig): (q: KlinesQuery)
    ensures q.symbol == symbol && q.interval == BinanceInterval(cfg.interval)
    ensures q.limit <= MaxKlines
    ensures q.limit == Limit(cfg)
  {
    KlinesQuery(symbol, BinanceInterval(cfg.interval), if Limit(cfg) < MaxKlines then Limit(cfg) else MaxKlines)
  }

  function ToPoint(c: Candle): PricePoint {
    PricePoint(c.openTime, c.close)
  }

  /** The history: one point per candle, in candle order. */
  function History(candles: seq<Candle>): (h: seq<PricePoint>)
    ensures |h| == |candles|
    ensures forall i :: 0 <= i < |candles| ==> h[i].time == candles[i].openTime && h[i].price == candles[i].close
  {
    if candles == [] then [] else [ToPoint(candles[0])] + History(candles[1..])
  }

  /** The 24-hour quote volume; a missing field reads as 0. */
  function Volume(t: TickerBody): (v: real)
    ensures t.quoteVolume.None? ==> v == 0.0
    ensures t.quoteVolume.Some? ==> v == t.quoteVolume.value
  {
    t.quoteVolume.GetOr(0.0)
  }

  /** The text of the exception the fetch raises. */
  function ErrorText(e: FetchError): (text: string)
    ensures e.BadReply? ==> |text| > 24 && text[..24] == "Binance returned status " && ParseNat(text[24..]) == Some(e.klinesStatus)
  {
    match e
    case TransportFailed => "transport error"
    case BadReply(status) =>
      ParseNatToString(status);
      var text := "Binance returned status " + NatToString(status);
      assert text[24..] == NatToString(status);
      text
  }

  /**
   * The fetch from Binance: issue both requests; return the result only when
   * both replies are 200 and the history is non-empty, and raise otherwise.
   */
  function FetchFromBinance(
    coinId: string, symbol: string, range: string, cfg: RangeConfig,
    klines: KlinesQuery -> Reply<seq<Candle>>, ticker: string -> Reply<TickerBody>): (r: Result<PriceResult, FetchError>)
    ensures var q := KlinesQueryFor(symbol, cfg);
      r.Ok? <==>
        klines(q).Reply? && ticker(symbol).Reply? &&
        klines(q).status == 200 && ticker(symbol).status == 200 && |klines(q).body| > 0
    ensures var q := KlinesQueryFor(symbol, cfg);
      r.Ok? ==>
        r.value.coin == coinId && r.value.range == range && r.value.source == "binance" &&
        r.value.history == History(klines(q).body) && r.value.dataPoints == |r.value.history| == |klines(q).body| &&
        r.value.volume24h == Volume(ticker(symbol).body)
    ensures var q := KlinesQueryFor(symbol, cfg);
      r.Err? && klines(q).Reply? && ticker(symbol).Reply? ==> r.error == BadReply(klines(q).status)
  {
    var q := KlinesQueryFor(symbol, cfg);
    var response := klines(q);
    var tickerResponse := ticker(symbol);
    if response.TransportError? || tickerResponse.TransportError? then
      Err(TransportFailed)
    else if response.status == 200 && tickerResponse.status == 200 && |History(response.body)| > 0 then
      var history := History(response.body);
      Ok(PriceResult(coinId, range, history, Volume(tickerResponse.body), "binance", |history|))
    else
      Err(BadReply(response.status))
  }

  /**
   * GET /api/price/{coin_id}?range=...: reject an unknown coin, then an unknown
   * range, with 400; turn anything the fetch raises into 503.
   */
  function GetPrice(
    coinId: string, range: string,
    klines: KlinesQuery -> Reply<seq<Candle>>, ticker: string -> Reply<TickerBody>): (r: ApiResponse)
    ensures coinId !in CoinMapping ==> r == HttpError(400, InvalidCoinDetail)
    ensures coinId in CoinMapping && range !in TimeRanges ==> r == HttpError(400, InvalidRangeDetail)
    ensures coinId in CoinMapping && range in TimeRanges ==>
      var symbol := CoinMapping[coinId];
      var fetched := FetchFromBinance(coinId, symbol, range, TimeRanges[range], klines, ticker);
      (fetched.Ok? ==> r == Found(fetched.value)) && (fetched.Err? ==> r == HttpError(503, UnavailableDetail))
    ensures r.Found? ==> r.body.coin == coinId && r.body.range == range && |r.body.history| > 0
  {
    if coinId !in CoinMapping then
      HttpError(400, InvalidCoinDetail)
    else if range !in TimeRanges then
      HttpError(400, InvalidRangeDetail)
    else
      var symbol := CoinMapping[coinId];
      match FetchFromBinance(coinId, symbol, range, TimeRanges[range], klines, ticker)
      case Ok(result) => Found(result)
      case Err(_) => HttpError(503, UnavailableDetail)
  }

  /** The length of a range in minutes, read off its `days` and `hours` fields. */
  function RangeMinutes(cfg: RangeConfig): nat {
    cfg.days.GetOr(0) * 1440 + cfg.hours.GetOr(0) * 60
  }

  /**
   * The length in minutes of a Binance interval: a decimal count followed by
   * the unit `m`, `h` or `d`.
   */
  function IntervalMinutes(interval: string): (m: Option<nat>)
    ensures m.Some? ==> |interval| >= 2 && interval[|interval| - 1] in {'m', 'h', 'd'}
  {
    if |interval| < 2 then None
    else
      var count := ParseNat(interval[..|interval| - 1]);
      var unit := interval[|interval| - 1];
      if count.None? then None
      else if unit == 'm' then Some(count.value)
      else if unit == 'h' then Some(count.value * 60)
      else if unit == 'd' then Some(count.value * 1440)
      else None
  }

  /** The coin table holds exactly the three supported coins, each with its USDT pair. */
  lemma CoinSymbols()
    ensures CoinMapping.Keys == {"bitcoin", "ethereum", "solana"}
    ensures CoinMapping["bitcoin"] == "BTCUSDT"
    ensures CoinMapping["ethereum"] == "ETHUSDT"
    ensures CoinMapping["solana"] == "SOLUSDT"
  {
  }

  /**
   * Every configured range is covered exactly: the requested number of candles
   * times the length of one candle is the length of the range, and the
   * one-hour fallback interval is never used.
   */
  lemma RangeCoverage(range: string)
    requires range in TimeRanges
    ensures var cfg := TimeRanges[range];
      cfg.interval in BinanceIntervals &&
      var m := IntervalMinutes(BinanceInterval(cfg.interval));
      m.Some? && KlinesQueryFor("", cfg).limit * m.value == RangeMinutes(cfg)
  {
    var cfg := TimeRanges[range];
    var interval := BinanceInterval(cfg.interval);
    var count := interval[..|interval| - 1];
    if range == "1h" {
      assert interval == "5m" && count == "5";
      assert NatToString(5) == count;
      ParseNatToString(5);
    } else if range == "6h" {
      assert interval == "15m" && count == "15";
      assert NatToString(15) == count;
      ParseNatToString(15);
    } else if range == "24h" {
      assert interval == "1h" && count == "1";
      assert NatToString(1) == count;
      ParseNatToString(1);
    } else if range == "7d" {
      assert interval == "4h" && count == "4";
      assert NatToString(4) == count;
      ParseNatToString(4);
    } else {
      assert range == "30d";
      assert interval == "1d" && count == "1";
      assert NatToString(1) == count;
      ParseNatToString(1);
    }
  }

  /**
   * The endpoint answers 400 exactly for an unknown coin or range, and returns
   * a result exactly when the fetch for the coin's pair succeeds.
   */
  lemma GetPriceOutcomes(
    coinId: string, range: string,
    klines: KlinesQuery -> Reply<seq<Candle>>, ticker: string -> Reply<TickerBody>)
    ensures var r := GetPrice(coinId, range, klines, ticker);
      (r.HttpError? && r.status == 400) <==> (coinId !in CoinMapping || range !in TimeRanges)
    ensures var r := GetPrice(coinId, range, klines, ticker);
      r.Found? <==>
        coinId in CoinMapping && range in TimeRanges &&
        FetchFromBinance(coinId, CoinMapping[coinId], range, TimeRanges[range], klines, ticker).Ok?
    ensures var r := GetPrice(coinId, range, klines, ticker);
      r.HttpError? ==> r.status in {400, 503}
  {
  }

  /**
   * A request without a range parameter is answered as one for 24h, and its
   * range is never the reason for a 400.
   */
  lemma MissingRangeMeans24h(
    coinId: string,
    klines: KlinesQuery -> Reply<seq<Candle>>, ticker: string -> Reply<TickerBody>)
    ensures GetPrice(coinId, RangeOrDefault(None), klines, ticker) == GetPrice(coinId, "24h", klines, ticker)
    ensures GetPrice(coinId, RangeOrDefault(None), klines, ticker) != HttpError(400, InvalidRangeDetail)
  {
    assert "24h" in TimeRanges;
  }
}
