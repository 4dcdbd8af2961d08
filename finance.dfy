/**
 * The quote client of `pkg/finance`: symbol dispatch, the conversion of a
 * decoded chart response into quotes, and the synthetic fixed-income series
 * derived from the BRL exchange rate. The network request and the JSON
 * decoding are one opaque collaborator (`Env.fetch`).
 */
module Finance {
  import opened Wrappers

  /** A historical sample: Unix seconds, the local calendar year and month of
      that instant, and the closing price. */
  datatype Quote = Quote(timestamp: int, year: int, month: int, close: real)

  /** The two arrays of a decoded chart response. */
  datatype Chart = Chart(timestamps: seq<int>, closes: seq<real>)

  datatype FetchError =
    | ProviderError(message: string)          // request, HTTP status, decoding or empty result
    | ExchangeUnavailable(cause: FetchError)  // the synthetic branch could not fetch the rate
    | NoExchangeData                          // the rate series was empty

  /** What the client calls but cannot see into: the chart fetch (symbol,
      start, end), the local-time calendar (Unix seconds to year and month),
      the `%f` rate scanner and `math.Pow`. */
  datatype Env = Env(
    fetch: (string, int, int) -> Result<Chart, FetchError>,
    calendar: int -> (int, int),
    parseRate: string -> real,
    pow: (real, real) -> real)

  const SyntheticPrefix: string := "FIXED-BRL-"
  const ExchangeSymbol: string := "BRL=X"
  const SecondsPerDay: real := 86400.0
  const InitialNotional: real := 100.0

  // ---------------------------------------------------------------------
  // Symbol dispatch

  /** The guard of the synthetic fixed-income branch: a symbol that passes it
      splits into the prefix and the non-empty rate text after it. */
  predicate IsSyntheticSymbol(symbol: string)
    ensures IsSyntheticSymbol(symbol) ==>
              |symbol| > |SyntheticPrefix| && symbol == SyntheticPrefix + symbol[10..] && symbol[10..] != []
    ensures |symbol| <= |SyntheticPrefix| ==> !IsSyntheticSymbol(symbol)
  {
    |symbol| > 10 && symbol[..10] == SyntheticPrefix
  }

  /** A symbol is dispatched to the synthetic branch exactly when it is the
      prefix followed by a non-empty rate text. */
  lemma SyntheticSymbolShape(symbol: string)
    ensures IsSyntheticSymbol(symbol) <==>
            exists rate: string :: rate != [] && symbol == SyntheticPrefix + rate
  {
    if IsSyntheticSymbol(symbol) {
      assert symbol == SyntheticPrefix + symbol[10..];
    }
    forall rate: string | rate != [] && symbol == SyntheticPrefix + rate
      ensures IsSyntheticSymbol(symbol)
    {
      assert symbol[..10] == SyntheticPrefix;
    }
  }

  // ---------------------------------------------------------------------
  // Chart arrays to quotes

  /** No quote of the series has a zero close (the fetch layer drops those). */
  predicate NonZeroCloses(quotes: seq<Quote>) {
    forall i :: 0 <= i < |quotes| ==> quotes[i].close != 0.0
  }

  /** The length both arrays are cut to when they disagree. */
  function AlignedLength(chart: Chart): (n: nat)
    ensures n <= |chart.timestamps| && n <= |chart.closes|
    ensures n == |chart.timestamps| || n == |chart.closes|
  {
    if |chart.closes| < |chart.timestamps| then |chart.closes| else |chart.timestamps|
  }

  /** Positions of the non-zero entries of `cs`, in increasing order. */
  function NonZeroIndices(cs: seq<real>): (k: seq<nat>)
    ensures |k| <= |cs|
    ensures forall j :: 0 <= j < |k| ==> k[j] < |cs| && cs[k[j]] != 0.0
    ensures forall j, l :: 0 <= j < l < |k| ==> k[j] < k[l]
  {
    if cs == [] then []
    else
      var p := NonZeroIndices(cs[..|cs| - 1]);
      if cs[|cs| - 1] != 0.0 then p + [|cs| - 1] else p
  }

  /** Every non-zero position is listed. */
  lemma {:induction false} NonZeroIndicesComplete(cs: seq<real>)
    ensures forall i :: 0 <= i < |cs| && cs[i] != 0.0 ==> i in NonZeroIndices(cs)
  {
    if cs != [] {
      var init := cs[..|cs| - 1];
      NonZeroIndicesComplete(init);
      assert forall i :: 0 <= i < |init| ==> init[i] == cs[i];
    }
  }

  /** Appending one entry adds its position when it is not zero. */
  lemma NonZeroIndicesStep(cs: seq<real>, i: nat)
    requires i < |cs|
    ensures NonZeroIndices(cs[..i + 1]) ==
            NonZeroIndices(cs[..i]) + (if cs[i] != 0.0 then [i] else [])
  {
    assert cs[..i + 1][..i] == cs[..i];
  }

  function MakeQuote(timestamp: int, close: real, calendar: int -> (int, int)): Quote {
    Quote(timestamp, calendar(timestamp).0, calendar(timestamp).1, close)
  }

  /** The quotes built from a chart: the index-aligned pairs of the truncated
      arrays whose close is not zero, in input order. */
  function ChartQuotes(chart: Chart, calendar: int -> (int, int)): (qs: seq<Quote>)
    ensures |qs| <= AlignedLength(chart)
    ensures NonZeroCloses(qs)
    ensures forall j :: 0 <= j < |qs| ==> (qs[j].year, qs[j].month) == calendar(qs[j].timestamp)
  {
    var n := AlignedLength(chart);
    var k := NonZeroIndices(chart.closes[..n]);
    seq(|k|, j requires 0 <= j < |k| =>
      MakeQuote(chart.timestamps[k[j]], chart.closes[k[j]], calendar))
  }

  /** A sequence holding, in order, one quote per kept index is the chart's quote list. */
  lemma ChartQuotesFrom(chart: Chart, calendar: int -> (int, int), qs: seq<Quote>)
    requires var k := NonZeroIndices(chart.closes[..AlignedLength(chart)]);
             |qs| == |k| &&
             forall j :: 0 <= j < |k| ==> qs[j] == MakeQuote(chart.timestamps[k[j]], chart.closes[k[j]], calendar)
    ensures qs == ChartQuotes(chart, calendar)
  {
  }

  /** Every quote extracted from a chart has a nonzero close. */
  lemma ChartQuotesNonZero(chart: Chart, calendar: int -> (int, int))
    ensures NonZeroCloses(ChartQuotes(chart, calendar))
  {
    var k := ChartQuotesSelection(chart, calendar);
    var qs := ChartQuotes(chart, calendar);
    forall j | 0 <= j < |qs| ensures qs[j].close != 0.0 {
      assert k[j] in k;
    }
  }

  /** The quotes of a chart are selected by a strictly increasing list of
      positions below the truncated length, holding exactly the positions
      whose close is not zero. */
  lemma ChartQuotesSelection(chart: Chart, calendar: int -> (int, int)) returns (k: seq<nat>)
    ensures var qs := ChartQuotes(chart, calendar);
            |qs| == |k| && |qs| <= AlignedLength(chart) &&
            (forall j :: 0 <= j < |k| ==>
               k[j] < AlignedLength(chart) &&
               qs[j] == MakeQuote(chart.timestamps[k[j]], chart.closes[k[j]], calendar)) &&
            (forall j, l :: 0 <= j < l < |k| ==> k[j] < k[l]) &&
            (forall i :: 0 <= i < AlignedLength(chart) ==> (chart.closes[i] != 0.0 <==> i in k))
  {
    k := NonZeroIndices(chart.closes[..AlignedLength(chart)]);
    NonZeroIndicesComplete(chart.closes[..AlignedLength(chart)]);
  }

  /** Truncates both series to the shorter one's length when they differ. */
  method Align(timestamps: seq<int>, closes: seq<real>) returns (ts: seq<int>, cs: seq<real>)
    ensures var n := AlignedLength(Chart(timestamps, closes));
            ts == timestamps[..n] && cs == closes[..n]
  {
    ts, cs := timestamps, closes;
    if |ts| != |cs| {
      var minLen := |ts|;
      if |cs| < minLen {
        minLen := |cs|;
      }
      ts := ts[..minLen];
      cs := cs[..minLen];
    }
    assert ts == timestamps[..|ts|] && cs == closes[..|cs|];
  }

  /** The slice truncation and the `append` loop of the raw branch. */
  method ExtractQuotes(timestamps: seq<int>, closes: seq<real>, calendar: int -> (int, int))
    returns (quotes: seq<Quote>)
    ensures quotes == ChartQuotes(Chart(timestamps, closes), calendar)
  {
    ghost var n := AlignedLength(Chart(timestamps, closes));
    var ts, cs := Align(timestamps, closes);
    quotes := [];
    ghost var kept: seq<nat> := [];
    var i := 0;
    while i < |ts|
      invariant 0 <= i <= |ts|
      invariant kept == NonZeroIndices(cs[..i])
      invariant |quotes| == |kept|
      invariant forall j :: 0 <= j < |kept| ==>
                  quotes[j] == MakeQuote(timestamps[kept[j]], closes[kept[j]], calendar)
    {
      NonZeroIndicesStep(cs, i);
      var price := cs[i];
      if price == 0.0 {
        i := i + 1;
        continue;
      }
      quotes := quotes + [MakeQuote(ts[i], price, calendar)];
      kept := kept + [i];
      i := i + 1;
    }
    assert cs[..i] == cs;
    ChartQuotesFrom(Chart(timestamps, closes), calendar, quotes);
  }

  // ---------------------------------------------------------------------
  // Synthetic fixed-income series

  /** The daily compounding rate for an annual percentage, 365-day basis. */
  function DailyRate(annualRatePercent: real, pow: (real, real) -> real): (d: real)
    ensures 1.0 + d == pow(1.0 + annualRatePercent / 100.0, 1.0 / 365.0)
    ensures annualRatePercent == 0.0 && pow(1.0, 1.0 / 365.0) == 1.0 ==> d == 0.0
  {
    pow(1.0 + annualRatePercent / 100.0, 1.0 / 365.0) - 1.0
  }

  /** Fractional days from `first` to `t`, never negative. */
  function ElapsedDays(first: int, t: int): (d: real)
    ensures d >= 0.0
    ensures t >= first ==> d * SecondsPerDay == (t - first) as real
    ensures t < first ==> d == 0.0
  {
    var days := ((t - first) as real / 3600.0) / 24.0;
    if days < 0.0 then 0.0 else days
  }

  function Closes(qs: seq<Quote>): (cs: seq<real>)
    ensures |cs| == |qs| && forall i :: 0 <= i < |qs| ==> cs[i] == qs[i].close
  {
    seq(|qs|, i requires 0 <= i < |qs| => qs[i].close)
  }

  /** The synthetic quote emitted for the exchange sample at position `i`:
      the compounded BRL notional divided by that day's rate. */
  function SyntheticAt(annualRatePercent: real, exchange: seq<Quote>, i: nat, pow: (real, real) -> real): (q: Quote)
    requires i < |exchange| && exchange[i].close != 0.0
    ensures q.timestamp == exchange[i].timestamp && q.year == exchange[i].year && q.month == exchange[i].month
    ensures q.close * exchange[i].close ==
              InitialNotional * pow(1.0 + DailyRate(annualRatePercent, pow),
                                    ElapsedDays(exchange[0].timestamp, exchange[i].timestamp))
    ensures (q.close == 0.0) ==
              (pow(1.0 + DailyRate(annualRatePercent, pow),
                   ElapsedDays(exchange[0].timestamp, exchange[i].timestamp)) == 0.0)
  {
    var eq := exchange[i];
    var days := ElapsedDays(exchange[0].timestamp, eq.timestamp);
    var accumulated := InitialNotional * pow(1.0 + DailyRate(annualRatePercent, pow), days);
    Quote(eq.timestamp, eq.year, eq.month, accumulated / eq.close)
  }

  /** The synthetic series: one quote per exchange sample whose rate is not zero. */
  function SyntheticQuotes(annualRatePercent: real, exchange: seq<Quote>, pow: (real, real) -> real): (out: seq<Quote>)
    ensures |out| <= |exchange|
    ensures |out| == |NonZeroIndices(Closes(exchange))|
    ensures (forall x, y :: pow(x, y) != 0.0) ==> NonZeroCloses(out)
  {
    var k := NonZeroIndices(Closes(exchange));
    seq(|k|, j requires 0 <= j < |k| => SyntheticAt(annualRatePercent, exchange, k[j], pow))
  }

  /** The loop invariant of the synthetic generator: `quotes` is the synthetic
      series of the first `i` exchange samples. */
  ghost predicate SyntheticSoFar(annualRatePercent: real, exchange: seq<Quote>, pow: (real, real) -> real,
                                 i: nat, quotes: seq<Quote>)
    requires i <= |exchange|
  {
    var k := NonZeroIndices(Closes(exchange)[..i]);
    |quotes| == |k| &&
    forall j :: 0 <= j < |k| ==> quotes[j] == SyntheticAt(annualRatePercent, exchange, k[j], pow)
  }

  lemma SyntheticStep(annualRatePercent: real, exchange: seq<Quote>, pow: (real, real) -> real,
                      i: nat, quotes: seq<Quote>)
    requires i < |exchange| && SyntheticSoFar(annualRatePercent, exchange, pow, i, quotes)
    ensures exchange[i].close == 0.0 ==> SyntheticSoFar(annualRatePercent, exchange, pow, i + 1, quotes)
    ensures exchange[i].close != 0.0 ==>
            SyntheticSoFar(annualRatePercent, exchange, pow, i + 1,
                           quotes + [SyntheticAt(annualRatePercent, exchange, i, pow)])
  {
    NonZeroIndicesStep(Closes(exchange), i);
  }

  lemma SyntheticSoFarComplete(annualRatePercent: real, exchange: seq<Quote>, pow: (real, real) -> real,
                               quotes: seq<Quote>)
    requires SyntheticSoFar(annualRatePercent, exchange, pow, |exchange|, quotes)
    ensures quotes == SyntheticQuotes(annualRatePercent, exchange, pow)
  {
    assert Closes(exchange)[..|exchange|] == Closes(exchange);
  }

  /** The synthetic branch's outcome for a given result of the rate fetch. */
  function SyntheticData(annualRatePercent: real, exchange: Result<seq<Quote>, FetchError>,
                         pow: (real, real) -> real): (r: Result<seq<Quote>, FetchError>)
    ensures exchange.Err? ==> r == Err(ExchangeUnavailable(exchange.error))
    ensures exchange.Ok? && exchange.value == [] ==> r == Err(NoExchangeData)
    ensures r.Ok? <==> exchange.Ok? && exchange.value != []
    ensures r.Ok? ==> |r.value| <= |exchange.value|
  {
    match exchange
    case Err(e) => Err(ExchangeUnavailable(e))
    case Ok(ex) => if |ex| == 0 then Err(NoExchangeData) else Ok(SyntheticQuotes(annualRatePercent, ex, pow))
  }

  /** The synthetic series keeps the dates of the exchange samples with a non-zero
      rate, in their order, and is no longer than the exchange series. */
  lemma SyntheticQuotesDates(annualRatePercent: real, exchange: seq<Quote>, pow: (real, real) -> real)
    returns (k: seq<nat>)
    ensures var out := SyntheticQuotes(annualRatePercent, exchange, pow);
            |out| == |k| && |out| <= |exchange| &&
            (forall j :: 0 <= j < |k| ==>
               k[j] < |exchange| && exchange[k[j]].close != 0.0 &&
               out[j].timestamp == exchange[k[j]].timestamp &&
               out[j].year == exchange[k[j]].year && out[j].month == exchange[k[j]].month) &&
            (forall j, l :: 0 <= j < l < |k| ==> k[j] < k[l]) &&
            (forall i :: 0 <= i < |exchange| ==> (exchange[i].close != 0.0 <==> i in k))
  {
    k := NonZeroIndices(Closes(exchange));
    NonZeroIndicesComplete(Closes(exchange));
  }

  /** Each emitted close, times the rate of the exchange sample it was built
      from, is 100 * pow(1 + dailyRate, days). */
  lemma SyntheticQuotesValues(annualRatePercent: real, exchange: seq<Quote>, pow: (real, real) -> real)
    ensures var k := NonZeroIndices(Closes(exchange));
            var out := SyntheticQuotes(annualRatePercent, exchange, pow);
            forall j :: 0 <= j < |out| ==>
              out[j].timestamp == exchange[k[j]].timestamp &&
              out[j].close * exchange[k[j]].close ==
                InitialNotional * pow(1.0 + DailyRate(annualRatePercent, pow),
                                      ElapsedDays(exchange[0].timestamp, exchange[k[j]].timestamp))
  {
    var out := SyntheticQuotes(annualRatePercent, exchange, pow);
    var k := NonZeroIndices(Closes(exchange));
    forall j | 0 <= j < |out|
      ensures out[j].close * exchange[k[j]].close ==
                InitialNotional * pow(1.0 + DailyRate(annualRatePercent, pow),
                                      ElapsedDays(exchange[0].timestamp, exchange[k[j]].timestamp))
    {
      var i := k[j];
      var a := InitialNotional * pow(1.0 + DailyRate(annualRatePercent, pow),
                                     ElapsedDays(exchange[0].timestamp, exchange[i].timestamp));
      assert out[j].close == a / exchange[i].close;
      assert (a / exchange[i].close) * exchange[i].close == a;
    }
  }

  /** With pow(1, y) = 1 for every y, an annual rate of 0 gives a daily rate of 0
      and a constant notional of 100, so each close is 100 / rate. */
  lemma ZeroRateIsConstantNotional(exchange: seq<Quote>, pow: (real, real) -> real)
    requires forall y :: pow(1.0, y) == 1.0
    ensures DailyRate(0.0, pow) == 0.0
    ensures var k := NonZeroIndices(Closes(exchange));
            var out := SyntheticQuotes(0.0, exchange, pow);
            forall j :: 0 <= j < |out| ==> out[j].close == InitialNotional / exchange[k[j]].close
  {
    assert DailyRate(0.0, pow) == pow(1.0, 1.0 / 365.0) - 1.0;
    var k := NonZeroIndices(Closes(exchange));
    forall j | 0 <= j < |k|
      ensures SyntheticAt(0.0, exchange, k[j], pow).close == InitialNotional / exchange[k[j]].close
    {
      var days := ElapsedDays(exchange[0].timestamp, exchange[k[j]].timestamp);
      assert pow(1.0 + DailyRate(0.0, pow), days) == pow(1.0, days);
    }
  }

  // ---------------------------------------------------------------------
  // The client's two entry points

  /** The raw branch: fetch the chart and build its quotes. */
  function RawQuotes(symbol: string, startDate: int, endDate: int, env: Env): Result<seq<Quote>, FetchError> {
    match env.fetch(symbol, startDate, endDate)
    case Err(e) => Err(e)
    case Ok(chart) => Ok(ChartQuotes(chart, env.calendar))
  }

  /** What `GetHistoricalData` returns. The rate series of the synthetic branch
      is always taken from the raw branch. */
  function HistoricalData(symbol: string, startDate: int, endDate: int, env: Env): (r: Result<seq<Quote>, FetchError>)
    ensures !IsSyntheticSymbol(symbol) ==>
              (r.Err? <==> env.fetch(symbol, startDate, endDate).Err?) &&
              (r.Err? ==> r.error == env.fetch(symbol, startDate, endDate).error)
    ensures IsSyntheticSymbol(symbol) ==>
              (r.Err? <==> env.fetch(ExchangeSymbol, startDate, endDate).Err? ||
                           ChartQuotes(env.fetch(ExchangeSymbol, startDate, endDate).value, env.calendar) == [])
    ensures r.Ok? && (!IsSyntheticSymbol(symbol) || forall x, y :: env.pow(x, y) != 0.0) ==> NonZeroCloses(r.value)
  {
    if IsSyntheticSymbol(symbol) then
      SyntheticData(env.parseRate(symbol[10..]), RawQuotes(ExchangeSymbol, startDate, endDate, env), env.pow)
    else
      RawQuotes(symbol, startDate, endDate, env)
  }

  /** The rate symbol and the bare prefix are not synthetic symbols, so
      fetching the rate goes straight to the raw branch: the synthetic branch
      is entered at most once per request. */
  lemma ExchangeFetchIsRaw(startDate: int, endDate: int, env: Env)
    ensures !IsSyntheticSymbol(ExchangeSymbol) && !IsSyntheticSymbol(SyntheticPrefix)
    ensures HistoricalData(ExchangeSymbol, startDate, endDate, env) == RawQuotes(ExchangeSymbol, startDate, endDate, env)
  {
  }

  method GetHistoricalData(symbol: string, startDate: int, endDate: int, env: Env)
    returns (r: Result<seq<Quote>, FetchError>)
    ensures r == HistoricalData(symbol, startDate, endDate, env)
    decreases if IsSyntheticSymbol(symbol) then 1 else 0, 1
  {
    if IsSyntheticSymbol(symbol) {
      var rateStr := symbol[10..];
      var annualRate := env.parseRate(rateStr);
      r := GetSyntheticFixedIncomeData(annualRate, startDate, endDate, env);
      return;
    }
    var response := env.fetch(symbol, startDate, endDate);
    if response.Err? {
      return Err(response.error);
    }
    var quotes := ExtractQuotes(response.value.timestamps, response.value.closes, env.calendar);
    r := Ok(quotes);
  }

  method GetSyntheticFixedIncomeData(annualRatePercent: real, startDate: int, endDate: int, env: Env)
    returns (r: Result<seq<Quote>, FetchError>)
    ensures r == SyntheticData(annualRatePercent, RawQuotes(ExchangeSymbol, startDate, endDate, env), env.pow)
    decreases 1, 0
  {
    var exchange := GetHistoricalData(ExchangeSymbol, startDate, endDate, env);
    ExchangeFetchIsRaw(startDate, endDate, env);
    if exchange.Err? {
      return Err(ExchangeUnavailable(exchange.error));
    }
    var exchangeQuotes := exchange.value;
    if |exchangeQuotes| == 0 {
      return Err(NoExchangeData);
    }
    var dailyRate := env.pow(1.0 + annualRatePercent / 100.0, 1.0 / 365.0) - 1.0;
    assert dailyRate == DailyRate(annualRatePercent, env.pow);
    var quotes: seq<Quote> := [];
    var firstDate := exchangeQuotes[0].timestamp;
    var i := 0;
    while i < |exchangeQuotes|
      invariant 0 <= i <= |exchangeQuotes|
      invariant SyntheticSoFar(annualRatePercent, exchangeQuotes, env.pow, i, quotes)
    {
      SyntheticStep(annualRatePercent, exchangeQuotes, env.pow, i, quotes);
      var eq := exchangeQuotes[i];
      var daysPassed := ((eq.timestamp - firstDate) as real / 3600.0) / 24.0;
      if daysPassed < 0.0 {
        daysPassed := 0.0;
      }
      assert daysPassed == ElapsedDays(firstDate, eq.timestamp);
      var accumulatedBRL := InitialNotional * env.pow(1.0 + dailyRate, daysPassed);
      var rateBRLUSD := eq.close;
      if rateBRLUSD == 0.0 {
        i := i + 1;
        continue;
      }
      var valueUSD := accumulatedBRL / rateBRLUSD;
      assert Quote(eq.timestamp, eq.year, eq.month, valueUSD) ==
             SyntheticAt(annualRatePercent, exchangeQuotes, i, env.pow);
      quotes := quotes + [Quote(eq.timestamp, eq.year, eq.month, valueUSD)];
      i := i + 1;
    }
    SyntheticSoFarComplete(annualRatePercent, exchangeQuotes, env.pow, quotes);
    r := Ok(quotes);
  }
}
