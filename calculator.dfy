/**
 * The strategy calculators of `pkg/calculator/dca.go`: recurring purchases
 * (DCA) with an optional seed purchase, and the one-time lump-sum purchase.
 * Prices and amounts are exact reals.
 */
module Calculator {
  import opened Wrappers
  import opened Finance

  /** What every calculator returns. */
  datatype StrategyResult = StrategyResult(
    strategyName: string,
    totalInvested: real,
    finalValue: real,
    returnPercent: real,
    totalAccumulated: real)  // units of the asset held

  /** The return-percent identity of a result: the relative gain in percent
      when something was invested, otherwise 0. */
  predicate ReturnConsistent(r: StrategyResult) {
    r.returnPercent ==
      if r.totalInvested > 0.0 then (r.finalValue - r.totalInvested) / r.totalInvested * 100.0 else 0.0
  }

  // ---------------------------------------------------------------------
  // Frequency: an open string type with three named values

  datatype Frequency = Daily | Weekly | Monthly | Other(text: string)

  /** The string a frequency stands for. */
  function FrequencyText(f: Frequency): string {
    match f
    case Daily => "daily"
    case Weekly => "weekly"
    case Monthly => "monthly"
    case Other(s) => s
  }

  /** An `Other` value never spells one of the three named frequencies. */
  predicate WellFormedFrequency(f: Frequency) {
    f.Other? ==> f.text != "daily" && f.text != "weekly" && f.text != "monthly"
  }

  /** The frequency a string stands for. */
  function ParseFrequency(s: string): (f: Frequency)
    ensures WellFormedFrequency(f) && FrequencyText(f) == s
  {
    if s == "daily" then Daily
    else if s == "weekly" then Weekly
    else if s == "monthly" then Monthly
    else Other(s)
  }

  /** Parsing the text of a well-formed frequency gives it back. */
  lemma FrequencyRoundTrip(f: Frequency)
    requires WellFormedFrequency(f)
    ensures ParseFrequency(FrequencyText(f)) == f
  {
  }

  // ---------------------------------------------------------------------
  // Purchase schedule

  const WeekSeconds: int := 7 * 24 * 3600

  /** The most recent element, or None for "no purchase yet". */
  function Latest(ps: seq<Quote>): (o: Option<Quote>)
    ensures o.None? <==> ps == []
  {
    if ps == [] then None else Some(ps[|ps| - 1])
  }

  /** Whether sample `q` triggers a purchase, given the previous one. The
      weekly test is the source's "at least 168 hours since the last purchase". */
  predicate ShouldBuy(freq: Frequency, last: Option<Quote>, q: Quote)
    ensures last.None? ==> ShouldBuy(freq, last, q)
    ensures last.Some? && freq == Daily ==> ShouldBuy(freq, last, q)
    ensures last.Some? && freq == Weekly ==>
              (ShouldBuy(freq, last, q) <==> (q.timestamp - last.value.timestamp) as real / 3600.0 >= 168.0)
    ensures last.Some? && freq == Monthly ==>
              (ShouldBuy(freq, last, q) <==> (q.year, q.month) != (last.value.year, last.value.month))
    ensures last.Some? && freq.Other? ==> !ShouldBuy(freq, last, q)
  {
    match last
    case None => true
    case Some(p) =>
      match freq
      case Daily => true
      case Weekly => q.timestamp - p.timestamp >= WeekSeconds
      case Monthly => q.month != p.month || q.year != p.year
      case Other(_) => false
  }

  /** The samples of `qs` that trigger a recurring purchase, in order. */
  function Purchases(freq: Frequency, qs: seq<Quote>): (ps: seq<Quote>)
    ensures |ps| <= |qs|
    ensures qs != [] ==> ps != [] && ps[0] == qs[0]
  {
    if qs == [] then []
    else
      var prev := Purchases(freq, qs[..|qs| - 1]);
      if ShouldBuy(freq, Latest(prev), qs[|qs| - 1]) then prev + [qs[|qs| - 1]] else prev
  }

  /** Whether sample `i` triggers a purchase. */
  ghost predicate BuysAt(freq: Frequency, qs: seq<Quote>, i: nat)
    requires i < |qs|
  {
    ShouldBuy(freq, Latest(Purchases(freq, qs[..i])), qs[i])
  }

  lemma PurchasesStep(freq: Frequency, qs: seq<Quote>, i: nat)
    requires i < |qs|
    ensures Purchases(freq, qs[..i + 1]) ==
            Purchases(freq, qs[..i]) + (if BuysAt(freq, qs, i) then [qs[i]] else [])
  {
    assert qs[..i + 1][..i] == qs[..i];
  }

  /** The purchases over a prefix of the series are a prefix of the purchases
      over the whole series: later samples never undo earlier purchases. */
  lemma {:induction false} PurchasesPrefix(freq: Frequency, qs: seq<Quote>, i: nat)
    requires i <= |qs|
    ensures var pre, all := Purchases(freq, qs[..i]), Purchases(freq, qs);
            |pre| <= |all| && pre == all[..|pre|]
  {
    if i < |qs| {
      var init := qs[..|qs| - 1];
      assert qs[..i] == init[..i];
      PurchasesPrefix(freq, init, i);
    } else {
      assert qs[..i] == qs;
    }
  }

  /** A sample that is bought has a non-zero close when every purchase over
      the whole series does. */
  lemma PurchasedCloseNonZero(freq: Frequency, qs: seq<Quote>, i: nat)
    requires i < |qs| && NonZeroCloses(Purchases(freq, qs)) && BuysAt(freq, qs, i)
    ensures qs[i].close != 0.0
  {
    PurchasesPrefix(freq, qs, i + 1);
    PurchasesStep(freq, qs, i);
    var pre, all := Purchases(freq, qs[..i + 1]), Purchases(freq, qs);
    assert pre[|pre| - 1] == qs[i];
    assert all[|pre| - 1] == pre[|pre| - 1];
  }

  /** Units bought by spending `amount` on each of `ps`. */
  function Units(amount: real, ps: seq<Quote>): real
    requires NonZeroCloses(ps)
  {
    if ps == [] then 0.0
    else Units(amount, ps[..|ps| - 1]) + amount / ps[|ps| - 1].close
  }

  /** Capital spent by paying `amount` for each of `ps`. */
  function Spent(amount: real, ps: seq<Quote>): (total: real)
  {
    if ps == [] then 0.0 else Spent(amount, ps[..|ps| - 1]) + amount
  }

  lemma {:induction false} SpentIsProduct(amount: real, ps: seq<Quote>)
    ensures Spent(amount, ps) == amount * |ps| as real
  {
    if ps != [] {
      SpentIsProduct(amount, ps[..|ps| - 1]);
    }
  }

  lemma SpentAppend(amount: real, ps: seq<Quote>, q: Quote)
    ensures Spent(amount, ps + [q]) == Spent(amount, ps) + amount
  {
    assert (ps + [q])[..|ps|] == ps;
  }

  lemma UnitsAppend(amount: real, ps: seq<Quote>, q: Quote)
    requires NonZeroCloses(ps) && q.close != 0.0
    ensures NonZeroCloses(ps + [q])
    ensures Units(amount, ps + [q]) == Units(amount, ps) + amount / q.close
  {
    assert (ps + [q])[..|ps|] == ps;
  }

  /** The purchases are samples of the series, picked at strictly increasing
      positions; the first sample is always picked. */
  lemma {:induction false} PurchasesAreSamples(freq: Frequency, qs: seq<Quote>) returns (k: seq<nat>)
    ensures var ps := Purchases(freq, qs);
            |k| == |ps| &&
            (forall j :: 0 <= j < |k| ==> k[j] < |qs| && ps[j] == qs[k[j]]) &&
            (forall j, l :: 0 <= j < l < |k| ==> k[j] < k[l]) &&
            (|qs| > 0 ==> |k| > 0 && k[0] == 0)
  {
    if qs == [] {
      k := [];
    } else {
      var init := qs[..|qs| - 1];
      var k0 := PurchasesAreSamples(freq, init);
      if ShouldBuy(freq, Latest(Purchases(freq, init)), qs[|qs| - 1]) {
        k := k0 + [|qs| - 1];
      } else {
        k := k0;
      }
    }
  }

  /** Every purchase is a sample of the series, and the first one is the first sample. */
  lemma PurchasesStartAtFirst(freq: Frequency, qs: seq<Quote>)
    requires |qs| > 0
    ensures var ps := Purchases(freq, qs);
            |ps| > 0 && ps[0] == qs[0] && forall p :: p in ps ==> p in qs
  {
    var k := PurchasesAreSamples(freq, qs);
  }

  lemma PurchasesNonZero(freq: Frequency, qs: seq<Quote>)
    requires NonZeroCloses(qs)
    ensures NonZeroCloses(Purchases(freq, qs))
  {
    var k := PurchasesAreSamples(freq, qs);
  }

  /** Daily: every sample is a purchase. */
  lemma {:induction false} DailyBuysEverySample(qs: seq<Quote>)
    ensures Purchases(Daily, qs) == qs
  {
    if qs != [] {
      DailyBuysEverySample(qs[..|qs| - 1]);
      assert qs[..|qs| - 1] + [qs[|qs| - 1]] == qs;
    }
  }

  /** A frequency other than the three named ones buys only the first sample. */
  lemma {:induction false} OtherBuysOnlyFirst(s: string, qs: seq<Quote>)
    ensures Purchases(Other(s), qs) == if qs == [] then [] else [qs[0]]
  {
    if qs != [] {
      var init := qs[..|qs| - 1];
      OtherBuysOnlyFirst(s, init);
      if init != [] {
        assert init[0] == qs[0];
      }
    }
  }

  /** Weekly: consecutive purchases are at least a week apart. */
  lemma {:induction false} WeeklySpacing(qs: seq<Quote>)
    ensures forall j :: 0 < j < |Purchases(Weekly, qs)| ==>
              Purchases(Weekly, qs)[j].timestamp - Purchases(Weekly, qs)[j - 1].timestamp >= WeekSeconds
  {
    if qs != [] {
      var init := qs[..|qs| - 1];
      WeeklySpacing(init);
      var prev := Purchases(Weekly, init);
      var ps := Purchases(Weekly, qs);
      forall j | 0 < j < |ps|
        ensures ps[j].timestamp - ps[j - 1].timestamp >= WeekSeconds
      {
        if j < |prev| {
          assert ps[j] == prev[j] && ps[j - 1] == prev[j - 1];
          assert prev[j].timestamp - prev[j - 1].timestamp >= WeekSeconds;
        } else {
          var x := qs[|qs| - 1];
          assert ShouldBuy(Weekly, Latest(prev), x) && prev != [];
          assert ps == prev + [x];
          assert ps[j - 1] == prev[|prev| - 1] && ps[j] == x;
          assert x.timestamp - prev[|prev| - 1].timestamp >= WeekSeconds;
        }
      }
    }
  }

  /** Weekly: a sample is bought exactly when nothing was bought before it or
      the most recent purchase is at least a week older; so every skipped
      sample lies less than a week after the most recent purchase. */
  lemma WeeklyRule(qs: seq<Quote>, i: nat)
    requires i < |qs|
    ensures var prev := Purchases(Weekly, qs[..i]);
            BuysAt(Weekly, qs, i) <==>
              (prev == [] || qs[i].timestamp - prev[|prev| - 1].timestamp >= WeekSeconds)
  {
  }

  // ---------------------------------------------------------------------
  // Monthly schedule

  predicate SameMonth(a: Quote, b: Quote) {
    a.year == b.year && a.month == b.month
  }

  /** `a`'s calendar month comes strictly before `b`'s. */
  predicate MonthBefore(a: Quote, b: Quote) {
    a.year < b.year || (a.year == b.year && a.month < b.month)
  }

  /** The series is ordered by calendar month (as a date-sorted series is). */
  predicate MonthSorted(qs: seq<Quote>) {
    forall i, j :: 0 <= i < j < |qs| ==> MonthBefore(qs[i], qs[j]) || SameMonth(qs[i], qs[j])
  }

  /** The distinct (year, month) pairs present in the series. */
  function MonthsOf(qs: seq<Quote>): set<(int, int)> {
    set q | q in qs :: (q.year, q.month)
  }

  /** Monthly: a sample is bought exactly when nothing was bought before it or
      its month or year differs from the most recent purchase's. */
  lemma MonthlyRule(qs: seq<Quote>, i: nat)
    requires i < |qs|
    ensures var prev := Purchases(Monthly, qs[..i]);
            BuysAt(Monthly, qs, i) <==> (prev == [] || !SameMonth(qs[i], prev[|prev| - 1]))
  {
  }

  /** Monthly: the month of every sample has a purchase; `j` is one. */
  lemma {:induction false} MonthlyCoversEveryMonth(qs: seq<Quote>, i: nat) returns (j: nat)
    requires i < |qs|
    ensures j < |Purchases(Monthly, qs)| && SameMonth(Purchases(Monthly, qs)[j], qs[i])
  {
    var n := |qs| - 1;
    var init := qs[..n];
    var x := qs[n];
    var prev := Purchases(Monthly, init);
    var ps := Purchases(Monthly, qs);
    if i == n {
      if ShouldBuy(Monthly, Latest(prev), x) {
        j := |prev|;
      } else {
        j := |prev| - 1;
      }
    } else {
      j := MonthlyCoversEveryMonth(init, i);
      assert ps[j] == prev[j];
    }
  }

  /** Monthly on a month-ordered series: purchases fall in strictly increasing
      months, so no month is bought twice. */
  lemma {:induction false} MonthlyStrictlyIncreasing(qs: seq<Quote>)
    requires MonthSorted(qs)
    ensures forall j, l :: 0 <= j < l < |Purchases(Monthly, qs)| ==>
              MonthBefore(Purchases(Monthly, qs)[j], Purchases(Monthly, qs)[l])
  {
    if qs != [] {
      var init := qs[..|qs| - 1];
      var x := qs[|qs| - 1];
      assert MonthSorted(init);
      MonthlyStrictlyIncreasing(init);
      var prev := Purchases(Monthly, init);
      if prev != [] && ShouldBuy(Monthly, Latest(prev), x) {
        var k := PurchasesAreSamples(Monthly, init);
        var last := prev[|prev| - 1];
        assert last == qs[k[|prev| - 1]];
        assert MonthBefore(last, x);
      }
    }
  }

  lemma MonthsOfAppend(qs: seq<Quote>, x: Quote)
    ensures MonthsOf(qs + [x]) == MonthsOf(qs) + {(x.year, x.month)}
  {
    assert forall y :: y in qs + [x] <==> y in qs || y == x;
  }

  /** Monthly on a month-ordered series: a new sample is bought exactly when
      its month is not yet present. */
  lemma MonthlyBuysNewMonth(init: seq<Quote>, x: Quote)
    requires init != [] && MonthSorted(init + [x])
    ensures ShouldBuy(Monthly, Latest(Purchases(Monthly, init)), x) <==> (x.year, x.month) !in MonthsOf(init)
  {
    var qs := init + [x];
    assert MonthSorted(init) by {
      forall i, j | 0 <= i < j < |init| ensures MonthBefore(init[i], init[j]) || SameMonth(init[i], init[j]) {
        assert init[i] == qs[i] && init[j] == qs[j];
      }
    }
    PurchasesStartAtFirst(Monthly, init);
    var prev := Purchases(Monthly, init);
    var last := prev[|prev| - 1];
    var k := PurchasesAreSamples(Monthly, init);
    assert last == init[k[|prev| - 1]] == qs[k[|prev| - 1]];
    assert qs[|init|] == x;
    assert MonthBefore(last, x) || SameMonth(last, x);
    if ShouldBuy(Monthly, Latest(prev), x) {
      MonthlyStrictlyIncreasing(init);
      forall y | y in init
        ensures (y.year, y.month) != (x.year, x.month)
      {
        var i :| 0 <= i < |init| && init[i] == y;
        var j := MonthlyCoversEveryMonth(init, i);
        assert j == |prev| - 1 || MonthBefore(prev[j], last);
      }
    } else {
      assert last in init;
    }
  }

  /** Monthly on a month-ordered series: exactly one purchase per month present. */
  lemma {:induction false} MonthlyOnePerMonth(qs: seq<Quote>)
    requires MonthSorted(qs)
    ensures |Purchases(Monthly, qs)| == |MonthsOf(qs)|
  {
    if qs != [] {
      var n := |qs| - 1;
      var init := qs[..n];
      var x := qs[n];
      assert qs == init + [x];
      MonthsOfAppend(init, x);
      if init == [] {
        assert MonthsOf(init) == {};
      } else {
        assert MonthSorted(init);
        MonthlyOnePerMonth(init);
        MonthlyBuysNewMonth(init, x);
      }
    }
  }

  // ---------------------------------------------------------------------
  // CalculateDCA

  const DcaNoDataName: string := "DCA Bitcoin (Sem dados)"
  const LumpSumName: string := "Investimento Único (Lump Sum)"

  /** The name a DCA result carries; `format` renders an amount like `%.0f`. */
  function DcaName(initialAmount: real, amountPerPeriod: real, freq: Frequency, format: real -> string): (name: string)
    ensures name == LumpSumName <==> initialAmount > 0.0 && amountPerPeriod == 0.0
    ensures |name| >= 4 && (name[..4] == "DCA " <==> initialAmount <= 0.0)
    ensures initialAmount <= 0.0 ==> name[4..] == FrequencyText(freq)
  {
    if initialAmount > 0.0 && amountPerPeriod == 0.0 then
      assert LumpSumName[..4] != "DCA " by { assert LumpSumName[..4][0] == 'I'; }
      LumpSumName
    else if initialAmount > 0.0 then
      var hybrid := "Híbrido (Ini: $" + format(initialAmount) + " + DCA)";
      assert hybrid[0] != LumpSumName[0] && hybrid[0] != 'D';
      hybrid
    else
      var dca := "DCA " + FrequencyText(freq);
      assert dca[0] != LumpSumName[0] && dca[..4] == "DCA ";
      dca
  }

  /** Capital of the seed purchase. */
  function SeedInvested(initialAmount: real): (c: real)
    ensures c >= 0.0 && c >= initialAmount
    ensures c == 0.0 || c == initialAmount
  {
    if initialAmount > 0.0 then initialAmount else 0.0
  }

  /** Units of the seed purchase, bought at the first close. */
  function SeedUnits(initialAmount: real, first: Quote): (u: real)
    requires initialAmount > 0.0 ==> first.close != 0.0
    ensures u * first.close == SeedInvested(initialAmount)
    ensures initialAmount <= 0.0 ==> u == 0.0
  {
    if initialAmount > 0.0 then initialAmount / first.close else 0.0
  }

  /** The recurring purchases actually made: none unless the periodic amount is positive. */
  function RecurringPurchases(quotes: seq<Quote>, amountPerPeriod: real, freq: Frequency): (ps: seq<Quote>)
    ensures NonZeroCloses(quotes) ==> NonZeroCloses(ps)
    ensures amountPerPeriod <= 0.0 ==> ps == []
    ensures quotes != [] && amountPerPeriod > 0.0 ==> ps != [] && ps[0] == quotes[0]
  {
    if amountPerPeriod > 0.0 then
      if NonZeroCloses(quotes) then PurchasesNonZero(freq, quotes); Purchases(freq, quotes)
      else Purchases(freq, quotes)
    else []
  }

  /** The closes a DCA run divides by are non-zero: the first close when there
      is a seed purchase, and the close of every recurring purchase. A zero
      close that is never bought at is harmless. */
  predicate DcaDefined(quotes: seq<Quote>, initialAmount: real, amountPerPeriod: real, freq: Frequency)
    ensures NonZeroCloses(quotes) ==> DcaDefined(quotes, initialAmount, amountPerPeriod, freq)
  {
    (|quotes| > 0 && initialAmount > 0.0 ==> quotes[0].close != 0.0) &&
    NonZeroCloses(RecurringPurchases(quotes, amountPerPeriod, freq))
  }

  /** The closing valuation of a strategy: the units held at the last price,
      and the return relative to what was invested (zero when nothing was). */
  function Settle(name: string, totalInvested: real, totalAccumulated: real, lastPrice: real): (r: StrategyResult)
    ensures r.strategyName == name && r.totalInvested == totalInvested
    ensures r.totalAccumulated == totalAccumulated && r.finalValue == r.totalAccumulated * lastPrice
    ensures ReturnConsistent(r)
  {
    var finalValue := totalAccumulated * lastPrice;
    var ret := if totalInvested > 0.0 then (finalValue - totalInvested) / totalInvested * 100.0 else 0.0;
    StrategyResult(name, totalInvested, finalValue, ret, totalAccumulated)
  }

  /** The frequency switch of the purchase loop. */
  method DecideBuy(freq: Frequency, lastPurchaseDate: Option<Quote>, q: Quote) returns (shouldBuy: bool)
    ensures shouldBuy == ShouldBuy(freq, lastPurchaseDate, q)
  {
    shouldBuy := false;
    if lastPurchaseDate.None? {
      shouldBuy := true;
    } else {
      match freq {
        case Daily =>
          shouldBuy := true;
        case Weekly =>
          if q.timestamp - lastPurchaseDate.value.timestamp >= WeekSeconds {
            shouldBuy := true;
          }
        case Monthly =>
          if q.month != lastPurchaseDate.value.month || q.year != lastPurchaseDate.value.year {
            shouldBuy := true;
          }
        case Other(_) =>
      }
    }
  }

  /** The recurring-purchase pass: walking the series in order, buy
      amountPerPeriod worth at every sample the frequency rule selects, and
      return what was spent and the units bought. */
  method BuyPeriodically(quotes: seq<Quote>, amountPerPeriod: real, freq: Frequency)
    returns (invested: real, accumulated: real)
    requires NonZeroCloses(RecurringPurchases(quotes, amountPerPeriod, freq))
    ensures invested == Spent(amountPerPeriod, RecurringPurchases(quotes, amountPerPeriod, freq))
    ensures accumulated == Units(amountPerPeriod, RecurringPurchases(quotes, amountPerPeriod, freq))
  {
    invested, accumulated := 0.0, 0.0;
    if amountPerPeriod <= 0.0 {
      return;
    }
    var lastPurchaseDate: Option<Quote> := None;
    ghost var purchases: seq<Quote> := [];
    var i := 0;
    while i < |quotes|
      invariant 0 <= i <= |quotes|
      invariant purchases == Purchases(freq, quotes[..i])
      invariant NonZeroCloses(purchases)
      invariant lastPurchaseDate == Latest(purchases)
      invariant invested == Spent(amountPerPeriod, purchases)
      invariant accumulated == Units(amountPerPeriod, purchases)
    {
      PurchasesStep(freq, quotes, i);
      var q := quotes[i];
      var shouldBuy := DecideBuy(freq, lastPurchaseDate, q);
      assert shouldBuy == BuysAt(freq, quotes, i);
      if shouldBuy {
        PurchasedCloseNonZero(freq, quotes, i);
        UnitsAppend(amountPerPeriod, purchases, q);
        SpentAppend(amountPerPeriod, purchases, q);
        var bought := amountPerPeriod / q.close;
        accumulated := accumulated + bought;
        invested := invested + amountPerPeriod;
        lastPurchaseDate := Some(q);
        purchases := purchases + [q];
      }
      i := i + 1;
    }
    assert quotes[..i] == quotes;
  }

  /** What a DCA run over `quotes` yields: the seed and the recurring
      purchases, valued at the last close. */
  function DcaOutcome(quotes: seq<Quote>, initialAmount: real, amountPerPeriod: real, freq: Frequency,
                      format: real -> string): (r: StrategyResult)
    requires DcaDefined(quotes, initialAmount, amountPerPeriod, freq)
    ensures |quotes| == 0 ==> r == StrategyResult(DcaNoDataName, 0.0, 0.0, 0.0, 0.0)
    ensures |quotes| > 0 ==>
            && r.finalValue == r.totalAccumulated * quotes[|quotes| - 1].close
            && ReturnConsistent(r)
            && r.strategyName == DcaName(initialAmount, amountPerPeriod, freq, format)
  {
    if |quotes| == 0 then StrategyResult(DcaNoDataName, 0.0, 0.0, 0.0, 0.0)
    else
      var bought := RecurringPurchases(quotes, amountPerPeriod, freq);
      Settle(DcaName(initialAmount, amountPerPeriod, freq, format),
             SeedInvested(initialAmount) + Spent(amountPerPeriod, bought),
             SeedUnits(initialAmount, quotes[0]) + Units(amountPerPeriod, bought),
             quotes[|quotes| - 1].close)
  }

  method CalculateDCA(quotes: seq<Quote>, initialAmount: real, amountPerPeriod: real, freq: Frequency,
                      format: real -> string)
    returns (r: StrategyResult)
    requires DcaDefined(quotes, initialAmount, amountPerPeriod, freq) && WellFormedFrequency(freq)
    ensures r == DcaOutcome(quotes, initialAmount, amountPerPeriod, freq, format)
  {
    var totalInvested := 0.0;
    var totalAccumulated := 0.0;
    if |quotes| == 0 {
      return StrategyResult(DcaNoDataName, 0.0, 0.0, 0.0, 0.0);
    }

    if initialAmount > 0.0 {
      var bought := initialAmount / quotes[0].close;
      totalAccumulated := totalAccumulated + bought;
      totalInvested := totalInvested + initialAmount;
    }
    assert totalInvested == SeedInvested(initialAmount) && totalAccumulated == SeedUnits(initialAmount, quotes[0]);

    var invested, accumulated := BuyPeriodically(quotes, amountPerPeriod, freq);
    totalInvested := totalInvested + invested;
    totalAccumulated := totalAccumulated + accumulated;

    r := Settle(DcaName(initialAmount, amountPerPeriod, freq, format), totalInvested, totalAccumulated,
                quotes[|quotes| - 1].close);
  }

  /** The DCA totals: the seed plus amountPerPeriod for each recurring
      purchase, and the units those buy. */
  lemma DcaTotals(quotes: seq<Quote>, initialAmount: real, amountPerPeriod: real, freq: Frequency,
                  format: real -> string)
    requires DcaDefined(quotes, initialAmount, amountPerPeriod, freq) && |quotes| > 0
    ensures var r := DcaOutcome(quotes, initialAmount, amountPerPeriod, freq, format);
            var bought := RecurringPurchases(quotes, amountPerPeriod, freq);
            && r.totalInvested == SeedInvested(initialAmount) + amountPerPeriod * |bought| as real
            && r.totalAccumulated == SeedUnits(initialAmount, quotes[0]) + Units(amountPerPeriod, bought)
  {
    SpentIsProduct(amountPerPeriod, RecurringPurchases(quotes, amountPerPeriod, freq));
  }

  /** Without a positive periodic amount there is no recurring purchase:
      the totals are the seed's alone. */
  lemma DcaSeedOnly(quotes: seq<Quote>, initialAmount: real, amountPerPeriod: real, freq: Frequency,
                    format: real -> string)
    requires DcaDefined(quotes, initialAmount, amountPerPeriod, freq) && |quotes| > 0 && amountPerPeriod <= 0.0
    ensures var r := DcaOutcome(quotes, initialAmount, amountPerPeriod, freq, format);
            r.totalInvested == SeedInvested(initialAmount) && r.totalAccumulated == SeedUnits(initialAmount, quotes[0])
  {
  }

  /** With neither a positive seed nor a positive periodic amount nothing is
      bought, invested or gained. */
  lemma DcaNothingInvested(quotes: seq<Quote>, initialAmount: real, amountPerPeriod: real, freq: Frequency,
                           format: real -> string)
    requires DcaDefined(quotes, initialAmount, amountPerPeriod, freq) && initialAmount <= 0.0 && amountPerPeriod <= 0.0
    ensures var r := DcaOutcome(quotes, initialAmount, amountPerPeriod, freq, format);
            r.totalInvested == 0.0 && r.totalAccumulated == 0.0 && r.finalValue == 0.0 && r.returnPercent == 0.0
  {
  }

  /** With a positive periodic amount the first sample is always bought. */
  lemma DcaBuysFirstSample(quotes: seq<Quote>, amountPerPeriod: real, freq: Frequency)
    requires |quotes| > 0 && amountPerPeriod > 0.0
    ensures |RecurringPurchases(quotes, amountPerPeriod, freq)| > 0
    ensures RecurringPurchases(quotes, amountPerPeriod, freq)[0] == quotes[0]
  {
    PurchasesStartAtFirst(freq, quotes);
  }

  /** Daily DCA of 100 over closes 100 and 200: 200 invested, 1.5 units,
      worth 300, a 50% return. */
  lemma DcaDailyExample(format: real -> string)
    ensures var r := DcaOutcome([Quote(0, 2020, 1, 100.0), Quote(86400, 2020, 1, 200.0)], 0.0, 100.0, Daily, format);
            r.totalInvested == 200.0 && r.totalAccumulated == 1.5 && r.finalValue == 300.0 && r.returnPercent == 50.0
  {
    var qs := [Quote(0, 2020, 1, 100.0), Quote(86400, 2020, 1, 200.0)];
    DailyBuysEverySample(qs);
    assert RecurringPurchases(qs, 100.0, Daily) == qs;
    assert qs[..1] == [qs[0]] && qs[..1][..0] == [];
    assert Units(100.0, qs[..1]) == 1.0;
    assert Units(100.0, qs) == 1.5;
    SpentIsProduct(100.0, qs);
  }

  /** Weekly DCA of 100 over closes 100 and 0 one day apart buys only the
      first sample, so the zero close is never divided by: 100 invested, one
      unit, worth 0, a −100% return. */
  lemma DcaZeroCloseNotBought(format: real -> string)
    ensures var qs := [Quote(0, 2020, 1, 100.0), Quote(86400, 2020, 1, 0.0)];
            && DcaDefined(qs, 0.0, 100.0, Weekly)
            && var r := DcaOutcome(qs, 0.0, 100.0, Weekly, format);
               r.totalInvested == 100.0 && r.totalAccumulated == 1.0 && r.finalValue == 0.0 && r.returnPercent == -100.0
  {
    var qs := [Quote(0, 2020, 1, 100.0), Quote(86400, 2020, 1, 0.0)];
    assert qs[..1] == [qs[0]] && qs[..1][..0] == [];
    assert Purchases(Weekly, qs[..1]) == [qs[0]];
    assert Purchases(Weekly, qs) == [qs[0]];
    assert Units(100.0, [qs[0]]) == 1.0 by { assert [qs[0]][..0] == []; }
    assert Spent(100.0, [qs[0]]) == 100.0 by { assert [qs[0]][..0] == []; }
  }

  lemma DailyInvestedPerSample(quotes: seq<Quote>, amountPerPeriod: real)
    requires amountPerPeriod > 0.0
    ensures |RecurringPurchases(quotes, amountPerPeriod, Daily)| == |quotes|
  {
    DailyBuysEverySample(quotes);
  }

  // ---------------------------------------------------------------------
  // CalculateLumpSum

  /** Buys once at the first close and values the holding at the last close. */
  function CalculateLumpSum(quotes: seq<Quote>, totalAmount: real, name: string): (r: StrategyResult)
    requires |quotes| > 0 ==> quotes[0].close != 0.0
    requires |quotes| > 0 ==> totalAmount != 0.0
    ensures |quotes| == 0 ==> r == StrategyResult(name + " (Sem dados)", 0.0, 0.0, 0.0, 0.0)
    ensures |quotes| > 0 ==>
            var first, last := quotes[0].close, quotes[|quotes| - 1].close;
            && r.strategyName == name
            && r.totalInvested == totalAmount
            && r.totalAccumulated * first == totalAmount
            && r.finalValue * first == totalAmount * last
            && r.returnPercent == (last - first) / first * 100.0
    ensures |quotes| > 0 && totalAmount > 0.0 ==> ReturnConsistent(r)
  {
    if |quotes| == 0 then StrategyResult(name + " (Sem dados)", 0.0, 0.0, 0.0, 0.0)
    else
      var firstPrice := quotes[0].close;
      var lastPrice := quotes[|quotes| - 1].close;
      var accumulated := totalAmount / firstPrice;
      var finalValue := accumulated * lastPrice;
      var ret := (finalValue - totalAmount) / totalAmount * 100.0;
      LumpSumReturn(totalAmount, firstPrice, lastPrice);
      StrategyResult(name, totalAmount, finalValue, ret, accumulated)
  }

  lemma LumpSumReturn(amount: real, first: real, last: real)
    requires amount != 0.0 && first != 0.0
    ensures (amount / first) * first == amount
    ensures ((amount / first) * last) * first == amount * last
    ensures ((amount / first) * last - amount) / amount * 100.0 == (last - first) / first * 100.0
  {
    var u := amount / first;
    assert u * first == amount;
    assert (u * last - amount) == u * (last - first);
    assert (u * (last - first)) / amount == (last - first) / first;
  }

  /** Closes 100 and 150 with 1000 invested give 1500, a 50% return. */
  lemma LumpSumExample()
    ensures var r := CalculateLumpSum([Quote(0, 2020, 1, 100.0), Quote(86400, 2020, 1, 150.0)], 1000.0, "Lump Sum");
            r.finalValue == 1500.0 && r.returnPercent == 50.0 && r.totalAccumulated == 10.0
  {
  }
}
