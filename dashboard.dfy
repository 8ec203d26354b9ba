/**
 * The dashboard page: the state it keeps between renders, how each outcome of
 * a price fetch updates that state, the theme toggle with its persisted copy,
 * and the small pure helpers the page renders with.
 *
 * The HTTP request is not modelled: each fetch arrives as a `FetchOutcome`, and
 * the current time as a number of milliseconds.
 */
module Dashboard {
  import opened Options
  import opened Numerals
  import Backend

  type PricePoint = Backend.PricePoint

  /** How one fetch ended: a parsed reply body, or a thrown error. */
  datatype FetchOutcome =
    | Fetched(history: seq<PricePoint>, volume24h: Option<real>)
    | FetchFailed

  /** The page's state fields that a fetch updates. */
  datatype DashState = DashState(
    data: seq<PricePoint>,
    currentPrice: Option<real>,
    priceChange: real,
    volume: real,
    lastUpdated: Option<int>,
    loading: bool,
    isUpdating: bool)

  /** The state before the first fetch. */
  const InitialState := DashState([], None, 0.0, 0.0, None, true, false)

  /**
   * The change in percent from `first` to `last`. The source divides without a
   * guard, so a zero first price is excluded here.
   */
  function PercentChange(first: real, last: real): (pct: real)
    requires first != 0.0
    ensures last == first + first * pct / 100.0
    ensures pct == 0.0 <==> last == first
    ensures first > 0.0 ==> (pct > 0.0 <==> last > first)
  {
    (last - first) / first * 100.0
  }

  /** A reply whose history is non-empty has a non-zero first price. */
  predicate FirstPriceNonZero(outcome: FetchOutcome) {
    outcome.Fetched? && |outcome.history| > 0 ==> outcome.history[0].price != 0.0
  }

  /**
   * The state after one fetch. The update indicator is switched on only when
   * the first load is over; a reply replaces the data and the timestamp, and
   * only a non-empty one recomputes price, change and volume; a failure changes
   * nothing but the flags. Loading is over in every case.
   */
  function ApplyFetch(s: DashState, outcome: FetchOutcome, now: int): (t: DashState)
    requires FirstPriceNonZero(outcome)
    ensures !t.loading
    ensures t.isUpdating == (s.isUpdating || !s.loading)
    ensures outcome.FetchFailed? ==>
      t.data == s.data && t.currentPrice == s.currentPrice && t.priceChange == s.priceChange &&
      t.volume == s.volume && t.lastUpdated == s.lastUpdated
    ensures outcome.Fetched? ==> t.data == outcome.history && t.lastUpdated == Some(now)
    ensures outcome.Fetched? && |outcome.history| == 0 ==>
      t.currentPrice == s.currentPrice && t.priceChange == s.priceChange && t.volume == s.volume
    ensures outcome.Fetched? && |outcome.history| > 0 ==>
      var first := outcome.history[0].price;
      var last := outcome.history[|outcome.history| - 1].price;
      t.currentPrice == Some(last) && last == first + first * t.priceChange / 100.0 &&
      t.volume == (if outcome.volume24h.Some? then outcome.volume24h.value else 0.0)
  {
    var s := s.(isUpdating := s.isUpdating || !s.loading);
    var s := match outcome
      case FetchFailed => s
      case Fetched(history, volume24h) =>
        var s := s.(data := history, lastUpdated := Some(now));
        if |history| > 0 then
          var first := history[0].price;
          var last := history[|history| - 1].price;
          s.(currentPrice := Some(last), priceChange := PercentChange(first, last), volume := volume24h.GetOr(0.0))
        else
          s;
    s.(loading := false)
  }

  /** Price and change are those of the data shown, whenever there is data. */
  ghost predicate Consistent(s: DashState) {
    |s.data| > 0 ==>
      s.data[0].price != 0.0 &&
      s.currentPrice == Some(s.data[|s.data| - 1].price) &&
      s.priceChange == PercentChange(s.data[0].price, s.data[|s.data| - 1].price)
  }

  lemma InitialConsistent()
    ensures Consistent(InitialState)
  {
  }

  /** Every fetch outcome keeps price and change in step with the data shown. */
  lemma ApplyFetchKeepsConsistent(s: DashState, outcome: FetchOutcome, now: int)
    requires FirstPriceNonZero(outcome)
    requires Consistent(s)
    ensures Consistent(ApplyFetch(s, outcome, now))
  {
  }

  /** Recomputing from the same reply gives the same data and statistics again. */
  lemma ApplyFetchRepeatable(s: DashState, outcome: FetchOutcome, now: int)
    requires FirstPriceNonZero(outcome)
    ensures var once := ApplyFetch(s, outcome, now);
      var twice := ApplyFetch(once, outcome, now);
      twice.(isUpdating := once.isUpdating) == once
  {
  }

  /** A two-point reply from 100 to 110 shows 110 and a change of ten percent. */
  lemma TenPercentScenario(now: int)
    ensures var t := ApplyFetch(InitialState,
      Fetched([Backend.PricePoint(1, 100.0), Backend.PricePoint(2, 110.0)], Some(5000000000.0)), now);
      t.currentPrice == Some(110.0) && t.priceChange == 10.0 && t.volume == 5000000000.0 &&
      !t.loading && !t.isUpdating
  {
  }

  /** What the page sees of an API answer: a body, or a rejected request for an error status. */
  function OutcomeOf(r: Backend.ApiResponse): (outcome: FetchOutcome)
    ensures outcome.Fetched? <==> r.Found?
    ensures r.Found? ==> outcome.history == r.body.history && outcome.volume24h == Some(r.body.volume24h)
  {
    match r
    case Found(body) => Fetched(body.history, Some(body.volume24h))
    case HttpError(_, _) => FetchFailed
  }

  /**
   * End to end: a successful answer of the API shows the close of the last
   * candle Binance returned for the coin's pair, and an error answer leaves
   * the statistics as they were.
   */
  lemma ApiAnswerUpdatesStats(
    s: DashState, coinId: string, range: string, now: int,
    klines: Backend.KlinesQuery -> Backend.Reply<seq<Backend.Candle>>,
    ticker: string -> Backend.Reply<Backend.TickerBody>)
    requires var r := Backend.GetPrice(coinId, range, klines, ticker);
      r.Found? ==> r.body.history[0].price != 0.0
    ensures var r := Backend.GetPrice(coinId, range, klines, ticker);
      var t := ApplyFetch(s, OutcomeOf(r), now);
      (r.Found? ==>
        var candles := klines(Backend.KlinesQueryFor(Backend.CoinMapping[coinId], Backend.TimeRanges[range])).body;
        |candles| > 0 && t.data == Backend.History(candles) &&
        t.currentPrice == Some(candles[|candles| - 1].close)) &&
      (r.HttpError? ==> t.data == s.data && t.currentPrice == s.currentPrice && t.priceChange == s.priceChange)
  {
    var r := Backend.GetPrice(coinId, range, klines, ticker);
    if r.Found? {
      assert coinId in Backend.CoinMapping && range in Backend.TimeRanges;
    }
  }

  // ----- theme -----

  /** The theme on mount: the stored value, or dark when none (or an empty one) is stored. */
  function InitialTheme(stored: Option<string>): (theme: string)
    ensures stored.Some? && stored.value != "" ==> theme == stored.value
    ensures stored.None? || stored.value == "" ==> theme == "dark"
  {
    if stored.Some? && stored.value != "" then stored.value else "dark"
  }

  /** The theme after a toggle: dark becomes light, anything else becomes dark. */
  function Toggled(theme: string): (next: string)
    ensures theme == "dark" ==> next == "light"
    ensures theme != "dark" ==> next == "dark"
  {
    if theme == "dark" then "light" else "dark"
  }

  /** Toggling twice restores exactly the two known themes. */
  lemma ToggleTwice(theme: string)
    ensures Toggled(Toggled(theme)) == theme <==> theme == "dark" || theme == "light"
  {
  }

  /** A toggled theme, once persisted, is the theme of the next mount. */
  lemma ToggledThemeSurvivesRemount(theme: string)
    ensures InitialTheme(Some(Toggled(theme))) == Toggled(theme)
  {
  }

  datatype ChartColors = ChartColors(grid: string, axis: string, text: string)

  const LightChart := ChartColors("rgba(0, 0, 0, 0.1)", "rgba(0, 0, 0, 0.5)", "#333")
  const DarkChart := ChartColors("rgba(255, 255, 255, 0.1)", "rgba(255, 255, 255, 0.5)", "#fff")

  /** The chart palette: the light one for the light theme, the dark one otherwise. */
  function ChartColorsFor(theme: string): (colors: ChartColors)
    ensures colors == LightChart <==> theme == "light"
    ensures colors == LightChart || colors == DarkChart
  {
    if theme == "light" then LightChart else DarkChart
  }

  /** A toggle changes the chart palette exactly when the theme was dark or light. */
  lemma ToggleSwitchesPalette(theme: string)
    ensures ChartColorsFor(Toggled(theme)) != ChartColorsFor(theme) <==> theme == "dark" || theme == "light"
  {
  }

  /**
   * The page itself: its state fields and the persisted theme, updated in
   * place by the fetch handler, the delayed indicator reset and the toggle.
   */
  class Page {
    var data: seq<PricePoint>
    var currentPrice: Option<real>
    var priceChange: real
    var volume: real
    var lastUpdated: Option<int>
    var loading: bool
    var isUpdating: bool
    var theme: string
    /** The copy of the theme in the browser's local storage. */
    var storedTheme: Option<string>

    ghost function State(): DashState
      reads this
    {
      DashState(data, currentPrice, priceChange, volume, lastUpdated, loading, isUpdating)
    }

    constructor (stored: Option<string>)
      ensures State() == InitialState
      ensures theme == InitialTheme(stored) && storedTheme == stored
    {
      data, currentPrice, priceChange, volume := [], None, 0.0, 0.0;
      lastUpdated, loading, isUpdating := None, true, false;
      theme := InitialTheme(stored);
      storedTheme := stored;
    }

    /** One run of the fetch handler, with the reply (or the error) given. */
    method FetchData(outcome: FetchOutcome, now: int)
      requires FirstPriceNonZero(outcome)
      modifies this
      ensures State() == ApplyFetch(old(State()), outcome, now)
      ensures theme == old(theme) && storedTheme == old(storedTheme)
    {
      if !loading {
        isUpdating := true;
      }
      match outcome {
        case Fetched(history, volume24h) =>
          var volume24 := if volume24h.Some? then volume24h.value else 0.0;
          data := history;
          if |history| > 0 {
            var latest := history[|history| - 1];
            var earliest := history[0];
            currentPrice := Some(latest.price);
            priceChange := (latest.price - earliest.price) / earliest.price * 100.0;
            volume := volume24;
          }
          lastUpdated := Some(now);
        case FetchFailed =>
      }
      loading := false;
    }

    /** The delayed reset of the update indicator after a fetch. */
    method HideUpdateIndicator()
      modifies this`isUpdating
      ensures State() == old(State()).(isUpdating := false)
    {
      isUpdating := false;
    }

    method ToggleTheme()
      modifies this`theme, this`storedTheme
      ensures theme == Toggled(old(theme)) && storedTheme == Some(theme)
      ensures State() == old(State())
    {
      var newTheme := if theme == "dark" then "light" else "dark";
      theme := newTheme;
      storedTheme := Some(newTheme);
    }
  }

  // ----- display helpers -----

  /** Whole seconds from `last` to `now` (both in milliseconds), rounded down. */
  function ElapsedSeconds(last: int, now: int): (diff: int)
    ensures diff * 1000 <= now - last < diff * 1000 + 1000
  {
    (now - last) / 1000
  }

  /** The "Updated ..." text: never, under ten seconds, seconds, or whole minutes. */
  function FormatLastUpdated(lastUpdated: Option<int>, now: int): (text: string)
    ensures lastUpdated.None? ==> text == ""
    ensures lastUpdated.Some? && ElapsedSeconds(lastUpdated.value, now) < 10 ==> text == "Just now"
  {
    if lastUpdated.None? then ""
    else
      var diff := ElapsedSeconds(lastUpdated.value, now);
      if diff < 10 then "Just now"
      else if diff < 60 then NatToString(diff) + "s ago"
      else NatToString(diff / 60) + "m ago"
  }

  /**
   * The number in an "... ago" text reads back as the elapsed seconds under a
   * minute, and as the whole minutes elapsed from a minute on.
   */
  lemma {:induction false} LastUpdatedReadsBack(last: int, now: int)
    requires ElapsedSeconds(last, now) >= 10
    ensures var text := FormatLastUpdated(Some(last), now);
      var diff := ElapsedSeconds(last, now);
      |text| > 5 &&
      var count := ParseNat(text[..|text| - 5]);
      count.Some? &&
      text[..|text| - 5] == NatToString(count.value) &&
      (diff < 60 ==> text[|text| - 5..] == "s ago" && count.value == diff) &&
      (diff >= 60 ==>
        text[|text| - 5..] == "m ago" && count.value >= 1 &&
        count.value * 60 <= diff < count.value * 60 + 60)
  {
    var text := FormatLastUpdated(Some(last), now);
    var diff := ElapsedSeconds(last, now);
    var n: nat := if diff < 60 then diff else diff / 60;
    ParseNatToString(n);
    assert text == NatToString(n) + (if diff < 60 then "s ago" else "m ago");
    assert text[..|text| - 5] == NatToString(n);
  }

  /** `c` in upper case when it is an ASCII lower-case letter. */
  function UpperChar(c: char): char {
    if 'a' <= c <= 'z' then (c as int - 32) as char else c
  }

  function UpperCase(s: string): (u: string)
    ensures |u| == |s| && forall i :: 0 <= i < |s| ==> u[i] == UpperChar(s[i])
  {
    seq(|s|, i requires 0 <= i < |s| => UpperChar(s[i]))
  }

  /** The text of the change card: the range in upper case, or 24H for an unknown range. */
  function ChangeLabel(range: string): (text: string)
    ensures range in Backend.TimeRanges ==> text == UpperCase(range)
    ensures range !in Backend.TimeRanges ==> text == "24H"
  {
    var labels := map["1h" := "1H", "6h" := "6H", "24h" := "24H", "7d" := "7D", "30d" := "30D"];
    assert labels.Keys == Backend.TimeRanges.Keys;
    assert forall r :: r in labels ==> labels[r] == UpperCase(r) by {
      assert UpperCase("1h") == "1H";
      assert UpperCase("6h") == "6H";
      assert UpperCase("24h") == "24H";
      assert UpperCase("7d") == "7D";
      assert UpperCase("30d") == "30D";
    }
    if range in labels then labels[range] else "24H"
  }

  /**
   * The date-fns pattern for an axis tick: none for a zero tick, clock time
   * for the three ranges of a day or less, month and day for the others.
   */
  function TickPattern(range: string, tick: int): (pattern: Option<string>)
    ensures tick == 0 <==> pattern.None?
    ensures tick != 0 ==> pattern == Some("HH:mm") || pattern == Some("MMM dd")
    ensures tick != 0 ==> (pattern == Some("HH:mm") <==> range == "1h" || range == "6h" || range == "24h")
  {
    if tick == 0 then None
    else if range == "1h" || range == "6h" then Some("HH:mm")
    else if range == "24h" then Some("HH:mm")
    else if range == "7d" then Some("MMM dd")
    else Some("MMM dd")
  }

  /** For the configured ranges, ticks show clock time exactly when the range spans at most a day. */
  lemma TickPatternFollowsRangeLength(range: string, tick: int)
    requires range in Backend.TimeRanges && tick != 0
    ensures TickPattern(range, tick) == Some("HH:mm") <==> Backend.RangeMinutes(Backend.TimeRanges[range]) <= 1440
  {
  }
}
