/**
 * The structured-note (COE) payoff of `pkg/calculator/coe.go`: the
 * underlying's return, scaled by participation, capped on the upside and
 * floored at zero when the capital is protected. The note holds no units.
 */
module Coe {
  import opened Finance
  import opened Calculator

  const CoeNoDataName: string := "COE (Sem dados)"

  /** The underlying's relative change from the first to the last close. */
  function AssetReturn(startPrice: real, endPrice: real): (r: real)
    requires startPrice != 0.0
    ensures r * startPrice == endPrice - startPrice
  {
    (endPrice - startPrice) / startPrice
  }

  /** The note's gross return: participation applied, then the cap (only
      when capLimit is positive), then the protection floor. */
  function GrossReturn(assetReturn: real, participation: real, protected: bool, capLimit: real): (g: real)
    ensures capLimit > 0.0 ==> g <= capLimit
    ensures protected ==> g >= 0.0
    ensures capLimit > 0.0 && assetReturn * participation > capLimit ==> g == capLimit
    ensures protected && assetReturn * participation < 0.0 ==> g == 0.0
    ensures (capLimit <= 0.0 || assetReturn * participation <= capLimit) &&
            (!protected || assetReturn * participation >= 0.0) ==>
              g == assetReturn * participation
  {
    var raw := assetReturn * participation;
    var capped := if capLimit > 0.0 && raw > capLimit then capLimit else raw;
    if protected && capped < 0.0 then 0.0 else capped
  }

  /** The display name: protection state, participation in percent, and the
      cap in percent or "Sem Teto"; `format` renders a number like `%.0f`. */
  function CoeName(protected: bool, participation: real, capLimit: real, format: real -> string): (name: string)
    ensures |name| > 9 && name[..5] == "COE ("
    ensures name[5] == 'P' <==> protected
    ensures capLimit <= 0.0 ==> name[|name| - 9..] == "Sem Teto)"
  {
    var protStr := if protected then "Protegido" else "Sem Proteção";
    var capStr := if capLimit > 0.0 then "Cap " + format(capLimit * 100.0) + "%" else "Sem Teto";
    var head := "COE (" + protStr;
    var rest := ", Part. " + format(participation * 100.0) + "%, " + capStr + ")";
    assert head[..5] == "COE (" && head[5] == protStr[0];
    assert capLimit <= 0.0 ==> rest[|rest| - 9..] == "Sem Teto)";
    ConcatEnds(head, rest, 6, 9);
    head + rest
  }

  /** The first characters of a concatenation are those of its left part,
      the last ones those of its right part. */
  lemma ConcatEnds(a: string, b: string, n: nat, m: nat)
    requires n <= |a| && m <= |b|
    ensures (a + b)[..n] == a[..n] && (a + b)[|a| + |b| - m..] == b[|b| - m..]
  {
  }

  function CalculateCOE(quotes: seq<Quote>, initialAmount: real, protected: bool, participation: real,
                        capLimit: real, format: real -> string): (r: StrategyResult)
    requires |quotes| > 0 ==> quotes[0].close != 0.0
    ensures |quotes| == 0 ==> r == StrategyResult(CoeNoDataName, 0.0, 0.0, 0.0, 0.0)
    ensures |quotes| > 0 ==>
            var g := GrossReturn(AssetReturn(quotes[0].close, quotes[|quotes| - 1].close),
                                 participation, protected, capLimit);
            && r.strategyName == CoeName(protected, participation, capLimit, format)
            && r.totalInvested == initialAmount
            && r.totalAccumulated == 0.0
            && r.finalValue == initialAmount * (1.0 + g)
            && r.returnPercent == g * 100.0
    ensures |quotes| > 0 && initialAmount > 0.0 ==> ReturnConsistent(r)
    ensures |quotes| > 0 && protected && initialAmount >= 0.0 ==> r.finalValue >= initialAmount
    ensures |quotes| > 0 && capLimit > 0.0 && initialAmount >= 0.0 ==>
              r.finalValue <= initialAmount * (1.0 + capLimit)
  {
    if |quotes| == 0 then StrategyResult(CoeNoDataName, 0.0, 0.0, 0.0, 0.0)
    else
      var startPrice := quotes[0].close;
      var endPrice := quotes[|quotes| - 1].close;
      var grossReturn := GrossReturn(AssetReturn(startPrice, endPrice), participation, protected, capLimit);
      var finalValue := initialAmount * (1.0 + grossReturn);
      var netReturn := grossReturn * 100.0;
      PayoffBounds(initialAmount, grossReturn, capLimit);
      StrategyResult(CoeName(protected, participation, capLimit, format), initialAmount, finalValue, netReturn, 0.0)
  }

  /** The arithmetic behind the payoff's guarantees. */
  lemma PayoffBounds(amount: real, g: real, capLimit: real)
    ensures amount > 0.0 ==> (amount * (1.0 + g) - amount) / amount * 100.0 == g * 100.0
    ensures amount >= 0.0 && g >= 0.0 ==> amount * (1.0 + g) >= amount
    ensures amount >= 0.0 && g <= capLimit ==> amount * (1.0 + g) <= amount * (1.0 + capLimit)
  {
    assert amount * (1.0 + g) - amount == amount * g;
    if amount > 0.0 {
      assert (amount * g) / amount == g;
    }
    if amount >= 0.0 && g <= capLimit {
      assert amount * (1.0 + capLimit) - amount * (1.0 + g) == amount * (capLimit - g);
      assert amount * (capLimit - g) >= 0.0;
    }
  }

  /** The return percent does not depend on the amount invested. */
  lemma ReturnIndependentOfAmount(quotes: seq<Quote>, a: real, b: real, protected: bool, participation: real,
                                  capLimit: real, format: real -> string)
    requires |quotes| > 0 ==> quotes[0].close != 0.0
    ensures CalculateCOE(quotes, a, protected, participation, capLimit, format).returnPercent ==
            CalculateCOE(quotes, b, protected, participation, capLimit, format).returnPercent
  {
  }

  /** A protected note with full participation and a 20% cap: a 35% rise
      pays 20%, a 10% fall pays 0, a 10% rise pays 10%. */
  lemma CappedProtectedExamples()
    ensures GrossReturn(0.35, 1.0, true, 0.20) == 0.20
    ensures GrossReturn(-0.10, 1.0, true, 0.20) == 0.0
    ensures GrossReturn(0.10, 1.0, true, 0.20) == 0.10
  {
  }

  /** The same three cases through the whole calculator, on a series from
      100 to 135, 90 and 110 with 1000 invested. */
  lemma CappedProtectedPayoffs(format: real -> string)
    ensures CalculateCOE([Quote(0, 2020, 1, 100.0), Quote(86400, 2020, 1, 135.0)],
                         1000.0, true, 1.0, 0.20, format).finalValue == 1200.0
    ensures CalculateCOE([Quote(0, 2020, 1, 100.0), Quote(86400, 2020, 1, 90.0)],
                         1000.0, true, 1.0, 0.20, format).finalValue == 1000.0
    ensures CalculateCOE([Quote(0, 2020, 1, 100.0), Quote(86400, 2020, 1, 110.0)],
                         1000.0, true, 1.0, 0.20, format).returnPercent == 10.0
  {
  }
}
