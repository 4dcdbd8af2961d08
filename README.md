# Strategy calculators and quote client — a Dafny model

This project models the computational core of a Go investment-simulation
service with Dafny 4.11.

- **`pkg/calculator`**:
  - `CalculateDCA` is recurring purchases (dollar-cost averaging) on a daily, weekly or monthly schedule, with an optional seed purchase.
  - `CalculateLumpSum` is a single purchase at the first close.
  - `CalculateCOE` is a structured-note payoff: participation, an upside cap and downside capital protection.
- **`pkg/finance/client.go`**:
  - the `FIXED-BRL-` symbol dispatch of `GetHistoricalData`;
  - the step that turns the decoded `timestamps`/`closes` arrays into quotes (truncate to the shorter array, drop zero closes, keep the order);
  - `getSyntheticFixedIncomeData`, which compounds a notional of 100 at a daily rate over the dates of the `BRL=X` series and divides by that day's rate.

Modules and files:

- `wrappers.dfy` (`Wrappers`): `Option` and `Result`.
- `finance.dfy` (`Finance`): `Quote`, the client's two entry points and their specification functions.
- `calculator.dfy` (`Calculator`): `StrategyResult`, `Frequency`, the purchase schedule, DCA and lump sum.
- `coe.dfy` (`Coe`): the structured note.

Modelling choices:

- Prices, amounts and rates are exact `real`s.
- A quote is `(timestamp, year, month, close)`. `timestamp` is in Unix seconds; `year` and `month` are the local calendar month of that instant.
- The calendar, the raw chart fetch (HTTP + JSON), the `%f` rate scanner and `math.Pow` are parameters bundled in `Finance.Env`. Nothing is assumed about them, except that `Finance.ZeroRateIsConstantNotional` assumes `pow(1, y) == 1`.
- `%.0f` name formatting is a `format: real -> string` parameter.
- `Client` has no fields, so its two methods are plain Dafny methods. They are mutually recursive like the Go ones. Their `decreases` clauses show that the synthetic branch re-enters `GetHistoricalData` only with `BRL=X`, which takes the raw branch, so the recursion depth is at most one.
- The "no purchase yet" sentinel `time.Time{}` is `Option<Quote>`.
- `Frequency`, which is an open Go string type, is `Daily | Weekly | Monthly | Other(text)`. `Other` matches no `switch` arm, so only the first sample is bought.
- The source's `for … range` loops are modelled as `while` loops. Each has invariants tied to a specification function:
  - `Calculator.Purchases` gives, by prefix recursion, the samples that trigger a purchase;
  - `Finance.NonZeroIndices` gives the positions kept by the zero-close filter;
  - `Finance.SyntheticQuotes` is the synthetic series.
- The state is local variables only, so no class is needed.

Two behaviours of the code differ from what a caller would expect; the model follows the code:

- `CalculateLumpSum` divides by `totalAmount` without a guard (`pkg/calculator/dca.go:116`). A zero guard giving a return of 0 is what callers would expect, but the code has none and yields 0/0. The model instead requires `totalAmount != 0` for a non-empty series.
- `CalculateCOE` reports `ReturnPercent = g * 100` even when `initialAmount <= 0` (`pkg/calculator/coe.go:39`). So the "return is the relative gain, or 0 when nothing was invested" identity that DCA keeps holds for the note only when `initialAmount > 0`. `Coe.CalculateCOE` states this.

## Model

| member | source | states |
|---|---|---|
| Finance.IsSyntheticSymbol | pkg/finance/client.go:44-45 | a symbol passing the `len > 10 && prefix` guard is `FIXED-BRL-` followed by the non-empty rate text `symbol[10..]` handed to the rate scanner; no symbol of 10 characters or fewer passes |
| Finance.SyntheticSymbolShape | pkg/finance/client.go:44 | a symbol takes the synthetic branch iff it is `FIXED-BRL-` followed by a non-empty rate text (the bare prefix does not) |
| Finance.ExchangeFetchIsRaw | pkg/finance/client.go:122 | `BRL=X` and the bare prefix are not synthetic, so fetching the rate is the raw fetch: the synthetic branch is entered at most once |
| Finance.AlignedLength | pkg/finance/client.go:89-98 | the truncated length is the smaller of the two array lengths |
| Finance.Align | pkg/finance/client.go:89-98 | both arrays come back cut to their common length, as prefixes of the inputs |
| Finance.NonZeroIndices | pkg/finance/client.go:101-107 | the kept positions are in range, strictly increasing, point at non-zero closes, and are no more than the samples |
| Finance.NonZeroIndicesComplete | pkg/finance/client.go:101-107 | every position with a non-zero close is kept |
| Finance.ChartQuotes | pkg/finance/client.go:100-113 | the quotes built from the truncated arrays are no more than the truncated length, none has a zero close, and each carries the calendar year and month of its own timestamp |
| Finance.ExtractQuotes | pkg/finance/client.go:89-115 | the truncate-and-append loop returns exactly the chart's quote list `ChartQuotes` |
| Finance.ChartQuotesSelection | pkg/finance/client.go:89-113 | the quote list is selected by strictly increasing positions below the truncated length, holds the aligned (timestamp, close) pair at each, is no longer than the truncated length, and a position is selected iff its close is non-zero |
| Finance.ChartQuotesNonZero | pkg/finance/client.go:104-107 | no extracted quote has a zero close |
| Finance.GetHistoricalData | pkg/finance/client.go:41-116 | the result is the synthetic series for a `FIXED-BRL-<rate>` symbol, otherwise the fetch error or the extracted quotes |
| Finance.GetSyntheticFixedIncomeData | pkg/finance/client.go:119-174 | a failed rate fetch becomes an error; an empty rate series is an error; otherwise the loop returns the synthetic series of the rate series |
| Finance.SyntheticData | pkg/finance/client.go:122-129 | a failed rate fetch becomes `ExchangeUnavailable` of its error, an empty rate series becomes `NoExchangeData`, the result is a series exactly when the rate series is non-empty, and it is no longer than the rate series |
| Finance.HistoricalData | pkg/finance/client.go:41-50 | for a non-synthetic symbol the result fails exactly when the fetch does, with the fetch's error; for a synthetic symbol it fails exactly when the `BRL=X` fetch fails or yields no quote; a successful raw result never has a zero close, nor a synthetic one whenever `pow` never returns 0 |
| Finance.DailyRate | pkg/finance/client.go:134 | one plus the daily rate is `pow(1 + annual/100, 1/365)`, the 365-day root of the annual growth factor; a 0% annual rate gives daily rate 0 when that root of 1 is 1 |
| Finance.ElapsedDays | pkg/finance/client.go:149-152 | elapsed days are never negative, are the timestamp difference over 86400 s when the date is not before the first, and 0 before it |
| Finance.SyntheticAt | pkg/finance/client.go:147-170 | the quote emitted for a non-zero-rate sample keeps the sample's date and calendar month, its close times the rate is `100 * pow(1 + dailyRate, days)`, and its close is 0 exactly when that `pow` is 0 |
| Finance.SyntheticQuotes | pkg/finance/client.go:147-171 | the synthetic series has one quote per non-zero-rate sample, so it is no longer than the rate series, and it has no zero close whenever `pow` never returns 0 |
| Finance.SyntheticQuotesDates | pkg/finance/client.go:147-171 | the synthetic dates are an order-preserving subsequence of the rate dates, skip exactly the zero-rate samples, and are no more than the rate samples |
| Finance.SyntheticQuotesValues | pkg/finance/client.go:134-170 | the j-th synthetic quote comes from the j-th non-zero-rate exchange sample: same timestamp, and its close times that sample's rate is `100 * pow(1 + dailyRate, days)` |
| Finance.ZeroRateIsConstantNotional | pkg/finance/client.go:134-165 | if `pow(1, y) = 1`, a 0% annual rate has daily rate 0 and each close is `100 / rate` |
| Calculator.ParseFrequency | pkg/calculator/dca.go:19-25 | every string is a frequency whose text is that string |
| Calculator.FrequencyRoundTrip | pkg/calculator/dca.go:19-25 | parsing a frequency's text gives the frequency back |
| Calculator.ShouldBuy | pkg/calculator/dca.go:48-68 | with no purchase yet every frequency buys; after one, daily always buys, weekly buys iff at least 168 hours have passed, monthly buys iff the (year, month) changed, and any other frequency never buys |
| Calculator.Purchases | pkg/calculator/dca.go:47-76 | the samples that trigger a purchase, in order, each tested by `ShouldBuy` against the latest earlier purchase; there are no more purchases than samples, and a non-empty series always buys its first sample first |
| Calculator.PurchasesPrefix | pkg/calculator/dca.go:47-76 | the purchases over a prefix of the series are a prefix of the purchases over the whole series: a later sample never changes an earlier decision |
| Calculator.PurchasedCloseNonZero | pkg/calculator/dca.go:70-71 | a sample that is bought has a non-zero close whenever every purchase of the whole series does, so the division at dca.go:71 is defined |
| Calculator.PurchasesAreSamples | pkg/calculator/dca.go:47-76 | purchases are samples taken at strictly increasing positions, starting with the first sample |
| Calculator.PurchasesStartAtFirst | pkg/calculator/dca.go:50-51 | with no purchase yet, the first sample is bought; every purchase is a sample |
| Calculator.DailyBuysEverySample | pkg/calculator/dca.go:54-56 | daily purchases are the whole series |
| Calculator.OtherBuysOnlyFirst | pkg/calculator/dca.go:53-67 | a frequency outside the three constants buys only the first sample |
| Calculator.WeeklyRule | pkg/calculator/dca.go:57-61 | a weekly sample is bought iff nothing was bought yet or the last purchase is at least 604800 s older, so every skipped sample is within a week of the last purchase |
| Calculator.WeeklySpacing | pkg/calculator/dca.go:57-61 | consecutive weekly purchases are at least 604800 s apart |
| Calculator.MonthlyRule | pkg/calculator/dca.go:62-66 | a monthly sample is bought iff nothing was bought yet or its (year, month) differs from the last purchase's |
| Calculator.MonthlyCoversEveryMonth | pkg/calculator/dca.go:62-66 | every sample's month has a monthly purchase |
| Calculator.MonthlyStrictlyIncreasing | pkg/calculator/dca.go:62-66 | on a month-ordered series, monthly purchases fall in strictly increasing months |
| Calculator.MonthlyBuysNewMonth | pkg/calculator/dca.go:62-66 | on a month-ordered series, a new sample is bought iff its month has not occurred yet |
| Calculator.MonthlyOnePerMonth | pkg/calculator/dca.go:62-66 | on a month-ordered series, the number of monthly purchases is the number of distinct (year, month) pairs |
| Calculator.SpentIsProduct | pkg/calculator/dca.go:70-75 | the recurring capital is `amountPerPeriod` times the number of purchases |
| Calculator.RecurringPurchases | pkg/calculator/dca.go:46 | no recurring purchase is made unless `amountPerPeriod > 0`; with a positive amount a non-empty series buys its first sample first; a series without zero closes yields purchases without zero closes |
| Calculator.SeedInvested | pkg/calculator/dca.go:37-41 | the seed capital is `max(initialAmount, 0)`: never negative, at least the amount, and either 0 or the amount |
| Calculator.SeedUnits | pkg/calculator/dca.go:37-41 | the seed units, paid at the first close, cost exactly the seed capital; no units without a positive seed |
| Calculator.DcaDefined | pkg/calculator/dca.go:37-71 | the closes DCA divides by are the first close when there is a seed and the close of each recurring purchase; a series with no zero close always satisfies this |
| Calculator.DcaName | pkg/calculator/dca.go:88-93 | the name is the lump-sum name exactly when there is a positive seed and no periodic amount; it starts with "DCA " exactly when there is no positive seed, and then continues with the frequency's text |
| Calculator.DecideBuy | pkg/calculator/dca.go:48-68 | the sentinel test and the frequency `switch` decide exactly the schedule rule `ShouldBuy` |
| Calculator.BuyPeriodically | pkg/calculator/dca.go:43-77 | the recurring loop (skipped unless `amountPerPeriod > 0`) spends `amountPerPeriod` per scheduled purchase and accumulates `amountPerPeriod / close` units for each |
| Calculator.Settle | pkg/calculator/dca.go:79-86 | the final value is the units times the last close, and the return is the relative gain in percent when something was invested, else 0 |
| Calculator.DcaOutcome | pkg/calculator/dca.go:28-102 | an empty series gives "DCA Bitcoin (Sem dados)" with all zeros; otherwise the final value is units × last close, the return identity holds, and the name is the lump-sum / hybrid / `DCA <freq>` choice |
| Calculator.CalculateDCA | pkg/calculator/dca.go:28-102 | the seed purchase, the recurring loop and the valuation compute exactly `DcaOutcome` |
| Calculator.DcaTotals | pkg/calculator/dca.go:36-76 | total invested is the seed (if positive) plus `amountPerPeriod` × the number of purchases; units are the seed's plus the sum of the purchases' `amount / close` |
| Calculator.DcaBuysFirstSample | pkg/calculator/dca.go:46-51 | with a positive periodic amount the first sample is always a purchase |
| Calculator.DailyInvestedPerSample | pkg/calculator/dca.go:54-56 | daily DCA makes one purchase per sample |
| Calculator.DcaSeedOnly | pkg/calculator/dca.go:37-46 | without a positive periodic amount the totals are the seed's alone |
| Calculator.DcaNothingInvested | pkg/calculator/dca.go:37-86 | with both amounts ≤ 0, invested, units, final value and return are all 0 |
| Calculator.DcaDailyExample | pkg/calculator/dca.go:28-102 | daily 100 over closes 100, 200 invests 200 for 1.5 units worth 300, a 50% return |
| Calculator.DcaZeroCloseNotBought | pkg/calculator/dca.go:57-81 | weekly 100 over closes 100 and 0 one day apart buys only the first sample, so the zero close is never divided by: 100 invested, 1 unit, worth 0, a −100% return |
| Calculator.CalculateLumpSum | pkg/calculator/dca.go:105-125 | an empty series gives `name + " (Sem dados)"` with zeros; otherwise invested is the amount, units × first close = amount, final value × first = amount × last, return = relative price change in percent, and the return identity holds for a positive amount |
| Calculator.LumpSumReturn | pkg/calculator/dca.go:113-116 | the arithmetic that turns the lump-sum return into the relative price change |
| Calculator.LumpSumExample | pkg/calculator/dca.go:105-125 | closes 100, 150 with 1000 give 10 units worth 1500, a 50% return |
| Coe.AssetReturn | pkg/calculator/coe.go:19-23 | the underlying return times the start price is the price change |
| Coe.GrossReturn | pkg/calculator/coe.go:26-36 | with a positive cap the return never exceeds it; protected returns are never negative; a raw return above a positive cap becomes the cap; a negative protected return becomes 0; otherwise the return is `assetReturn × participation` unchanged |
| Coe.CoeName | pkg/calculator/coe.go:41-52 | the name starts with "COE (", its next character is 'P' exactly when the capital is protected ("Protegido" vs "Sem Proteção"), and without a positive cap it ends with "Sem Teto)" |
| Coe.CalculateCOE | pkg/calculator/coe.go:14-61 | an empty series gives "COE (Sem dados)" with zeros; otherwise invested is the amount, units 0, final value `amount × (1 + g)`, return `g × 100`, the descriptive name; the return identity holds for a positive amount; protected notes never end below a non-negative amount; capped notes never end above `amount × (1 + cap)` |
| Coe.PayoffBounds | pkg/calculator/coe.go:38-39 | the arithmetic behind the return identity and the protection and cap bounds on the final value |
| Coe.ReturnIndependentOfAmount | pkg/calculator/coe.go:38-39 | the note's return percent does not depend on the amount invested |
| Coe.CappedProtectedExamples | pkg/calculator/coe.go:26-36 | participation 1, cap 0.20, protected: 0.35 gives 0.20, −0.10 gives 0, 0.10 gives 0.10 |
| Coe.CappedProtectedPayoffs | pkg/calculator/coe.go:19-39 | the same three cases through the calculator with 1000 invested: 1200, 1000 and a 10% return |

## Left out

- HTTP request building, status checks and JSON decoding (`pkg/finance/client.go:52-87`). They are one opaque `fetch` that returns the decoded arrays or an error. The error texts are reduced to the `FetchError` constructors.
- The `Indicators.Quote[0]` index (`pkg/finance/client.go:87`) panics when the list is empty. The opaque fetch hands over the arrays directly, so that panic is not modelled.
- `fmt.Sscanf` rate parsing is an opaque `parseRate`. The `%.0f` name formatting is an opaque `format`.
- `math.Pow` is an uninterpreted `pow`. Dafny's reals have no real exponent.
- The local-time `Month()`/`Year()` computation is an opaque `calendar`. `Duration.Hours()` is exact division of integer seconds.
- IEEE `float64` is not modelled: no rounding, NaN or Inf. Divisions by a zero close that is actually divided by, or by a zero lump-sum amount, are excluded by preconditions. In the source they yield Inf or NaN.
- The sentinel `time.Time{}` is `None`. A quote dated exactly at Go's zero time would make `IsZero()` true again after a purchase. No market timestamp equals Go's zero time (Unix −62135596800), so this is ignored.
- Calculator.CalculateDCA: requires `DcaDefined`: the first close is non-zero when there is a positive seed (dca.go:38), and every close bought at is non-zero (dca.go:71). In the source a zero close at either place yields Inf or NaN; a zero close that is never bought at is harmless, as `Calculator.DcaZeroCloseNotBought` shows. The raw fetch never yields a zero close (`Finance.ChartQuotesNonZero`); the synthetic series yields one only where `pow` returns 0 (`Finance.SyntheticAt`), for instance at a −100% annual rate. The entry point also requires a well-formed frequency: `Other("daily")` and the like stand for no Go value, since the string "daily" is `Daily` (`Calculator.ParseFrequency`).
- Calculator.CalculateLumpSum: requires `totalAmount != 0` and a non-zero first close for a non-empty series instead of modelling 0/0 as NaN and x/0 as Inf.
- Coe.CalculateCOE: requires a non-zero first close for a non-empty series instead of modelling the Inf/NaN return.
- Currency alignment and the "native currency" flag are not part of this model. The client's `GetHistoricalData` takes three arguments and has neither.
- `main.go` (HTTP handlers, forms, templates, asset catalogue, result ranking) is not part of this model.
