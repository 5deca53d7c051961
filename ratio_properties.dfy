/**
  Properties of the ratio engine: the `safeDivide` guard, the `|| 0`
  defaults, equity resolution, the shape of individual formulas, and how
  the engine relates to the plain-real formulas of `RatioReference`.
 */
module RatioProperties {
  import opened JsNumber
  import opened Ratios
  import opened RatioReference

  /** The report with every field 0. */
  const ZeroRatios := FinancialRatios(
    Liquidity(0.0, 0.0, 0.0),
    Leverage(0.0, 0.0, 0.0),
    Profitability(0.0, 0.0, 0.0, 0.0),
    Efficiency(0.0, 0.0, 0.0),
    Coverage(0.0, 0.0))

  // ----- safeDivide -----

  /** `safeDivide` is 0 exactly when the guard fires or the numerator is 0. */
  lemma SafeDivideZeroIff(n: Num, d: Num)
    ensures SafeDivide(n, d) == 0.0 <==> !IsFinite(n) || !IsFinite(d) || d.v == 0.0 || n.v == 0.0
  {
    if IsFinite(n) && IsFinite(d) && d.v != 0.0 {
      var q := SafeDivide(n, d);
      assert q * d.v == n.v;
      if q == 0.0 {
        assert n.v == 0.0;
      }
    }
  }

  // ----- reading the statements -----

  /** Reading a key after storing an amount under some key `k`. */
  lemma PropAfterWrite(s: Statement, k: string, v: Num, key: string)
    ensures Prop(s[k := v], key) == if key == k then Number(v) else Prop(s, key)
  {
  }

  /** Reading a key after deleting some key `k`. */
  lemma PropAfterDelete(s: Statement, k: string, key: string)
    ensures Prop(s - {k}, key) == if key == k then Undefined else Prop(s, key)
  {
  }

  /** A line item stored as 0 or NaN is read exactly as if it were absent,
      for plain line items and for the equity fallback. */
  lemma FalsyReadsAsAbsent(s: Statement, k: string, v: Num, key: string)
    requires v == Fin(0.0) || v == NaN
    ensures Input(s[k := v], key) == Input(s - {k}, key)
    ensures Equity(s[k := v]) == Equity(s - {k})
  {
    PropAfterWrite(s, k, v, key);
    PropAfterDelete(s, k, key);
    PropAfterWrite(s, k, v, "TotalEquity");
    PropAfterDelete(s, k, "TotalEquity");
    PropAfterWrite(s, k, v, "ShareholdersEquity");
    PropAfterDelete(s, k, "ShareholdersEquity");
  }

  /** So the readings, and with them the whole report, are the same whether
      a line item of either statement holds 0, holds NaN or is missing. */
  lemma ComputeFalsyAsAbsent(data: FinancialData, k: string, v: Num)
    requires v == Fin(0.0) || v == NaN
    ensures Compute(data.(incomeStatement := data.incomeStatement[k := v])) ==
            Compute(data.(incomeStatement := data.incomeStatement - {k}))
    ensures Compute(data.(balanceSheet := data.balanceSheet[k := v])) ==
            Compute(data.(balanceSheet := data.balanceSheet - {k}))
  {
    ReadFalsyAsAbsent(data, k, v);
    ComputeOfSameReadings(data.(incomeStatement := data.incomeStatement[k := v]),
                          data.(incomeStatement := data.incomeStatement - {k}));
    ComputeOfSameReadings(data.(balanceSheet := data.balanceSheet[k := v]),
                          data.(balanceSheet := data.balanceSheet - {k}));
  }

  /** The report depends on the data only through the readings. */
  lemma ComputeOfSameReadings(d1: FinancialData, d2: FinancialData)
    requires Read(d1) == Read(d2)
    ensures Compute(d1) == Compute(d2)
  {
  }

  lemma ReadFalsyAsAbsent(data: FinancialData, k: string, v: Num)
    requires v == Fin(0.0) || v == NaN
    ensures Read(data.(incomeStatement := data.incomeStatement[k := v])) ==
            Read(data.(incomeStatement := data.incomeStatement - {k}))
    ensures Read(data.(balanceSheet := data.balanceSheet[k := v])) ==
            Read(data.(balanceSheet := data.balanceSheet - {k}))
  {
    var income, bs := data.incomeStatement, data.balanceSheet;
    forall key: string
      ensures Input(income[k := v], key) == Input(income - {k}, key)
      ensures Input(bs[k := v], key) == Input(bs - {k}, key)
    {
      FalsyReadsAsAbsent(income, k, v, key);
      FalsyReadsAsAbsent(bs, k, v, key);
    }
    FalsyReadsAsAbsent(bs, k, v, "TotalEquity");
    ReadSameInputs(data.(incomeStatement := income[k := v]), data.(incomeStatement := income - {k}));
    ReadSameInputs(data.(balanceSheet := bs[k := v]), data.(balanceSheet := bs - {k}));
  }

  /** Two data sets whose statements read alike line item by line item
      (the equity fallback included) give the same readings. */
  lemma ReadSameInputs(d1: FinancialData, d2: FinancialData)
    requires forall key :: Input(d1.incomeStatement, key) == Input(d2.incomeStatement, key)
    requires forall key :: Input(d1.balanceSheet, key) == Input(d2.balanceSheet, key)
    requires Equity(d1.balanceSheet) == Equity(d2.balanceSheet)
    ensures Read(d1) == Read(d2)
  {
    var b1, b2 := d1.balanceSheet, d2.balanceSheet;
    var i1, i2 := d1.incomeStatement, d2.incomeStatement;
    assert Input(b1, "TotalCurrentAssets") == Input(b2, "TotalCurrentAssets");
    assert Input(b1, "AccountsPayable") == Input(b2, "AccountsPayable");
    assert Input(b1, "ShortTermDebt") == Input(b2, "ShortTermDebt");
    assert Input(b1, "Cash") == Input(b2, "Cash");
    assert Input(b1, "AccountsReceivable") == Input(b2, "AccountsReceivable");
    assert Input(b1, "Inventory") == Input(b2, "Inventory");
    assert Input(b1, "LongTermDebt") == Input(b2, "LongTermDebt");
    assert Input(b1, "TotalAssets") == Input(b2, "TotalAssets");
    assert Input(i1, "InterestExpense") == Input(i2, "InterestExpense");
    assert Input(i1, "OperatingIncome") == Input(i2, "OperatingIncome");
    assert Input(i1, "NetIncome") == Input(i2, "NetIncome");
    assert Input(i1, "Revenue") == Input(i2, "Revenue");
    assert Input(i1, "GrossProfit") == Input(i2, "GrossProfit");
    assert Input(i1, "CostOfGoodsSold") == Input(i2, "CostOfGoodsSold");
  }

  /** With both statements empty every reading is 0 and so is every ratio,
      whatever the cash flow. */
  lemma EmptyStatementsGiveZeroRatios(cashFlow: Statement)
    ensures Compute(FinancialData(map[], map[], cashFlow)) == ZeroRatios
  {
    EmptyStatementsReadZero(cashFlow);
    ZeroReadingsGiveZeroRatios();
  }

  /** The readings that every absent line item gives. */
  const ZeroReadings := Readings(Fin(0.0), Fin(0.0), Fin(0.0), Fin(0.0), Fin(0.0), Fin(0.0), Fin(0.0),
                                 Fin(0.0), Fin(0.0), Fin(0.0), Fin(0.0), Fin(0.0), Fin(0.0), Fin(0.0))

  lemma EmptyStatementsReadZero(cashFlow: Statement)
    ensures Read(FinancialData(map[], map[], cashFlow)) == ZeroReadings
  {
  }

  lemma ZeroReadingsGiveZeroRatios()
    ensures RatiosOf(ZeroReadings) == ZeroRatios
  {
  }

  /** The cash-flow statement has no influence on any ratio. */
  lemma CashFlowIgnored(data: FinancialData, cashFlow: Statement)
    ensures Compute(data.(cashFlow := cashFlow)) == Compute(data)
  {
    assert Read(data.(cashFlow := cashFlow)) == Read(data);
  }

  // ----- equity resolution -----

  /** Equity is TotalEquity when that is present, nonzero and not NaN;
      otherwise ShareholdersEquity when present and not NaN; otherwise 0. */
  lemma EquityResolution(bs: Statement)
    ensures Equity(bs) ==
      if "TotalEquity" in bs && bs["TotalEquity"] != Fin(0.0) && bs["TotalEquity"] != NaN then bs["TotalEquity"]
      else if "ShareholdersEquity" in bs && bs["ShareholdersEquity"] != NaN then bs["ShareholdersEquity"]
      else Fin(0.0)
  {
  }

  /** debtToEquity and roe both divide by that resolved equity. */
  lemma EquityDenominator(data: FinancialData)
    ensures var r := Compute(data); var e := Equity(data.balanceSheet);
      && r.leverage.debtToEquity == SafeDivide(Read(data).totalDebt, e)
      && r.profitability.roe == SafeDivide(Read(data).netIncome, e) * 100.0
  {
    var x := Read(data);
    ReadEquity(data);
    assert Compute(data) == RatiosOf(x);
    assert x.totalEquity == Equity(data.balanceSheet);
  }

  lemma ReadEquity(data: FinancialData)
    ensures Read(data).totalEquity == Equity(data.balanceSheet)
  {
  }

  /** TotalEquity 0 and ShareholdersEquity 500 use 500, and
      so do an absent TotalEquity; a nonzero TotalEquity wins. */
  lemma EquityFallbackExample()
    ensures Equity(map["TotalEquity" := Fin(0.0), "ShareholdersEquity" := Fin(500.0)]) == Fin(500.0)
    ensures Equity(map["ShareholdersEquity" := Fin(500.0)]) == Fin(500.0)
    ensures Equity(map["TotalEquity" := Fin(2000.0), "ShareholdersEquity" := Fin(500.0)]) == Fin(2000.0)
    ensures Equity(map["TotalEquity" := NaN]) == Fin(0.0)
  {
  }

  // ----- individual formulas, over any readings -----

  /** The three liquidity ratios share the denominator (current
      liabilities), and the quick ratio falls short of the current ratio by
      exactly inventory over that denominator. */
  lemma LiquiditySharedDenominator(x: Readings)
    requires IsFinite(x.currentAssets) && IsFinite(x.inventory) && IsFinite(x.cash)
    requires IsFinite(x.currentLiabilities) && x.currentLiabilities.v != 0.0
    ensures var l := x.currentLiabilities.v; var q := RatiosOf(x).liquidity;
      && q.currentRatio * l == x.currentAssets.v
      && q.quickRatio * l == x.currentAssets.v - x.inventory.v
      && q.cashRatio * l == x.cash.v
      && q.currentRatio - q.quickRatio == x.inventory.v / l
  {
    var l := x.currentLiabilities.v;
    var a, i := x.currentAssets.v, x.inventory.v;
    assert RatiosOf(x).liquidity == Liquidity(a / l, (a - i) / l, x.cash.v / l);
    QuotientDifference(a, i, l);
  }

  /** When current liabilities are zero or not finite, all three liquidity
      ratios are 0. */
  lemma LiquidityGuard(x: Readings)
    requires !IsFinite(x.currentLiabilities) || x.currentLiabilities == Fin(0.0)
    ensures RatiosOf(x).liquidity == Liquidity(0.0, 0.0, 0.0)
  {
  }

  /** Any amount that is not finite (an infinity kept by `|| 0`) zeroes
      every ratio that divides by it or into it: here total assets. */
  lemma NonFiniteAssetsGiveZero(x: Readings)
    requires !IsFinite(x.totalAssets)
    ensures var r := RatiosOf(x);
      && r.leverage.debtToAssets == 0.0
      && r.profitability.roa == 0.0
      && r.efficiency.assetTurnover == 0.0
  {
  }

  /** Profitability ratios are 100 times the corresponding quotient. */
  lemma ProfitabilityIsPercent(x: Readings)
    requires IsFinite(x.netIncome) && IsFinite(x.grossProfit)
    ensures var p := RatiosOf(x).profitability;
      && (IsFinite(x.totalEquity) && x.totalEquity.v != 0.0 ==> p.roe == x.netIncome.v / x.totalEquity.v * 100.0)
      && (IsFinite(x.totalAssets) && x.totalAssets.v != 0.0 ==> p.roa == x.netIncome.v / x.totalAssets.v * 100.0)
      && (IsFinite(x.revenue) && x.revenue.v != 0.0 ==> p.netProfitMargin == x.netIncome.v / x.revenue.v * 100.0)
      && (IsFinite(x.revenue) && x.revenue.v != 0.0 ==> p.grossProfitMargin == x.grossProfit.v / x.revenue.v * 100.0)
  {
  }

  /** debtServiceCoverage is (operating income + interest expense) over
      interest expense plus the assumed 10% interest on total debt. */
  lemma DebtServiceCoverageFormula(x: Readings)
    requires IsFinite(x.interestExpense) && IsFinite(x.operatingIncome) && IsFinite(x.totalDebt)
    requires x.interestExpense.v + 0.1 * x.totalDebt.v != 0.0
    ensures var i, o := x.interestExpense.v, x.operatingIncome.v;
      RatiosOf(x).coverage.debtServiceCoverage == (o + i) / (i + 0.1 * x.totalDebt.v)
  {
  }

  /** With no interest expense and no debt every coverage ratio is 0. */
  lemma NoInterestNoDebtNoCoverage(x: Readings)
    requires x.interestExpense == Fin(0.0) && x.totalDebt == Fin(0.0)
    ensures RatiosOf(x).coverage == Coverage(0.0, 0.0)
    ensures RatiosOf(x).leverage.interestCoverage == 0.0
  {
  }

  /** Without debt, debtServiceCoverage exceeds interest coverage by exactly 1. */
  lemma DebtFreeServiceCoverage(x: Readings)
    requires x.totalDebt == Fin(0.0) && IsFinite(x.operatingIncome)
    requires IsFinite(x.interestExpense) && x.interestExpense.v != 0.0
    ensures RatiosOf(x).coverage.debtServiceCoverage == RatiosOf(x).leverage.interestCoverage + 1.0
  {
    var o, i := x.operatingIncome.v, x.interestExpense.v;
    assert RatiosOf(x).coverage.debtServiceCoverage == (o + i) / i;
    assert RatiosOf(x).leverage.interestCoverage == o / i;
    QuotientPlusOne(o, i);
  }

  /** The DuPont identity for assets: return on assets is net margin times
      asset turnover, whenever revenue and total assets are nonzero. */
  lemma DuPontAssets(x: Readings)
    requires IsFinite(x.netIncome) && IsFinite(x.revenue) && IsFinite(x.totalAssets)
    requires x.revenue.v != 0.0 && x.totalAssets.v != 0.0
    ensures var r := RatiosOf(x);
      r.profitability.roa == r.profitability.netProfitMargin * r.efficiency.assetTurnover
  {
    var n, v, a := x.netIncome.v, x.revenue.v, x.totalAssets.v;
    assert ProfitabilityRatios(x).roa == n / a * 100.0;
    assert ProfitabilityRatios(x).netProfitMargin == n / v * 100.0;
    assert EfficiencyRatios(x).assetTurnover == v / a;
    MarginTimesTurnover(n, v, a);
  }

  /** The DuPont identity for equity: return on equity is return on assets
      times assets over equity, whenever total assets and equity are nonzero. */
  lemma DuPontEquity(x: Readings)
    requires IsFinite(x.netIncome) && IsFinite(x.totalAssets) && IsFinite(x.totalEquity)
    requires x.totalAssets.v != 0.0 && x.totalEquity.v != 0.0
    ensures var p := RatiosOf(x).profitability;
      p.roe == p.roa * (x.totalAssets.v / x.totalEquity.v)
  {
    var n, a, e := x.netIncome.v, x.totalAssets.v, x.totalEquity.v;
    assert ProfitabilityRatios(x).roe == n / e * 100.0;
    assert ProfitabilityRatios(x).roa == n / a * 100.0;
    MarginTimesTurnover(n, a, e);
  }

  // ----- facts about real division used above -----

  /** a/l - (a-i)/l == i/l. */
  lemma QuotientDifference(a: real, i: real, l: real)
    requires l != 0.0
    ensures a / l - (a - i) / l == i / l
  {
    assert (a / l - (a - i) / l) * l == i;
    DivisionUnique(a / l - (a - i) / l, i, l);
  }

  /** (o+i)/i == o/i + 1. */
  lemma QuotientPlusOne(o: real, i: real)
    requires i != 0.0
    ensures (o + i) / i == o / i + 1.0
  {
    assert (o / i + 1.0) * i == o + i;
    DivisionUnique(o / i + 1.0, o + i, i);
  }

  /** (n/v * 100) * (v/a) == n/a * 100. */
  lemma MarginTimesTurnover(n: real, v: real, a: real)
    requires v != 0.0 && a != 0.0
    ensures (n / v * 100.0) * (v / a) == n / a * 100.0
  {
    assert (n / v * 100.0) * (v / a) * a == n * 100.0;
    DivisionUnique((n / v * 100.0) * (v / a), n * 100.0, a);
  }

  /** A real that multiplies a nonzero divisor into n is n over that divisor. */
  lemma DivisionUnique(x: real, n: real, d: real)
    requires d != 0.0 && x * d == n
    ensures x == n / d
  {
  }

  // ----- agreement with the plain-real formulas -----

  /** Reading an all-finite statement gives the finite amount stored, or 0. */
  lemma FiniteInput(s: Statement, key: string)
    requires AllFinite(s)
    ensures Input(s, key) == Fin(Get(AmountsOf(s), key))
  {
  }

  /** The readings of all-finite statements, as real amounts. */
  function FiniteReadings(income: Amounts, bs: Amounts): Readings {
    Readings(
      currentAssets := Fin(Get(bs, "TotalCurrentAssets")),
      currentLiabilities := Fin(LiabilitiesAmount(bs)),
      cash := Fin(Get(bs, "Cash")),
      accountsReceivable := Fin(Get(bs, "AccountsReceivable")),
      inventory := Fin(Get(bs, "Inventory")),
      totalDebt := Fin(DebtAmount(bs)),
      totalEquity := Fin(EquityAmount(bs)),
      totalAssets := Fin(Get(bs, "TotalAssets")),
      interestExpense := Fin(Get(income, "InterestExpense")),
      operatingIncome := Fin(Get(income, "OperatingIncome")),
      netIncome := Fin(Get(income, "NetIncome")),
      revenue := Fin(Get(income, "Revenue")),
      grossProfit := Fin(Get(income, "GrossProfit")),
      costOfGoods := Fin(Get(income, "CostOfGoodsSold")))
  }

  lemma ReadFinite(data: FinancialData)
    requires AllFinite(data.incomeStatement) && AllFinite(data.balanceSheet)
    ensures Read(data) == FiniteReadings(AmountsOf(data.incomeStatement), AmountsOf(data.balanceSheet))
  {
    var bs := AmountsOf(data.balanceSheet);
    FiniteInput(data.balanceSheet, "TotalCurrentAssets");
    FiniteInput(data.balanceSheet, "AccountsPayable");
    FiniteInput(data.balanceSheet, "ShortTermDebt");
    FiniteInput(data.balanceSheet, "Cash");
    FiniteInput(data.balanceSheet, "AccountsReceivable");
    FiniteInput(data.balanceSheet, "Inventory");
    FiniteInput(data.balanceSheet, "LongTermDebt");
    FiniteInput(data.balanceSheet, "TotalAssets");
    FiniteInput(data.incomeStatement, "InterestExpense");
    FiniteInput(data.incomeStatement, "OperatingIncome");
    FiniteInput(data.incomeStatement, "NetIncome");
    FiniteInput(data.incomeStatement, "Revenue");
    FiniteInput(data.incomeStatement, "GrossProfit");
    FiniteInput(data.incomeStatement, "CostOfGoodsSold");
    FiniteInput(data.balanceSheet, "TotalEquity");
    FiniteInput(data.balanceSheet, "ShareholdersEquity");
    assert Equity(data.balanceSheet) == Fin(EquityAmount(bs));
  }

  lemma FiniteRatios(income: Amounts, bs: Amounts)
    ensures RatiosOf(FiniteReadings(income, bs)) == Reference(income, bs)
  {
    FiniteLiquidity(income, bs);
    FiniteLeverage(income, bs);
    FiniteProfitability(income, bs);
    FiniteEfficiency(income, bs);
    FiniteCoverage(income, bs);
  }

  lemma FiniteLiquidity(income: Amounts, bs: Amounts)
    ensures LiquidityRatios(FiniteReadings(income, bs)) == ReferenceLiquidity(bs)
  {
  }

  lemma FiniteLeverage(income: Amounts, bs: Amounts)
    ensures LeverageRatios(FiniteReadings(income, bs)) == ReferenceLeverage(income, bs)
  {
  }

  lemma FiniteProfitability(income: Amounts, bs: Amounts)
    ensures ProfitabilityRatios(FiniteReadings(income, bs)) == ReferenceProfitability(income, bs)
  {
  }

  lemma FiniteEfficiency(income: Amounts, bs: Amounts)
    ensures EfficiencyRatios(FiniteReadings(income, bs)) == ReferenceEfficiency(income, bs)
  {
  }

  lemma FiniteCoverage(income: Amounts, bs: Amounts)
    ensures CoverageRatios(FiniteReadings(income, bs)) == ReferenceCoverage(income, bs)
  {
    CoverageOfFinite(FiniteReadings(income, bs), Get(income, "OperatingIncome"), Get(income, "InterestExpense"), DebtAmount(bs));
  }

  lemma CoverageOfFinite(x: Readings, o: real, i: real, d: real)
    requires x.operatingIncome == Fin(o) && x.interestExpense == Fin(i) && x.totalDebt == Fin(d)
    ensures CoverageRatios(x) == Coverage(Div(o, i), Div(o + i, i + 0.1 * d))
  {
    assert Mul(Fin(d), Fin(AssumedDebtInterestRate)) == Fin(0.1 * d);
  }

  /** For statements whose amounts are all finite the engine computes
      exactly the fifteen formulas of `RatioReference` over real amounts. */
  lemma FiniteInputMatchesReference(data: FinancialData)
    requires AllFinite(data.incomeStatement) && AllFinite(data.balanceSheet)
    ensures Compute(data) == Reference(AmountsOf(data.incomeStatement), AmountsOf(data.balanceSheet))
  {
    ReadFinite(data);
    FiniteRatios(AmountsOf(data.incomeStatement), AmountsOf(data.balanceSheet));
  }

  /** A sample income statement and balance sheet. */
  const ExampleIncome: Statement := map[
    "Revenue" := Fin(800.0), "NetIncome" := Fin(80.0), "OperatingIncome" := Fin(120.0),
    "InterestExpense" := Fin(40.0), "GrossProfit" := Fin(400.0), "CostOfGoodsSold" := Fin(350.0)]
  const ExampleBalance: Statement := map[
    "TotalCurrentAssets" := Fin(1000.0), "AccountsPayable" := Fin(200.0), "ShortTermDebt" := Fin(100.0),
    "Inventory" := Fin(300.0), "Cash" := Fin(150.0), "TotalAssets" := Fin(5000.0), "TotalEquity" := Fin(2000.0)]

  /** The sample statements: no long-term debt, no receivables and no
      cash-flow data. */
  lemma WorkedExample()
    ensures var r := Compute(FinancialData(ExampleIncome, ExampleBalance, map[]));
      && r.liquidity == Liquidity(1000.0 / 300.0, 700.0 / 300.0, 0.5)
      && r.leverage == Leverage(0.05, 0.02, 3.0)
      && r.profitability == Profitability(4.0, 1.6, 10.0, 50.0)
      && r.efficiency == Efficiency(0.16, 350.0 / 300.0, 0.0)
      && r.coverage == Coverage(3.0, 3.2)
  {
    ExampleRead();
    ExampleRatios();
  }

  /** What the engine reads from the sample statements. */
  const ExampleReadings := Readings(
    currentAssets := Fin(1000.0), currentLiabilities := Fin(300.0), cash := Fin(150.0),
    accountsReceivable := Fin(0.0), inventory := Fin(300.0), totalDebt := Fin(100.0),
    totalEquity := Fin(2000.0), totalAssets := Fin(5000.0), interestExpense := Fin(40.0),
    operatingIncome := Fin(120.0), netIncome := Fin(80.0), revenue := Fin(800.0),
    grossProfit := Fin(400.0), costOfGoods := Fin(350.0))

  lemma ExampleRead()
    ensures Read(FinancialData(ExampleIncome, ExampleBalance, map[])) == ExampleReadings
  {
    ExampleReadBalance();
    ExampleReadIncome();
  }

  lemma ExampleReadBalance()
    ensures var x := Read(FinancialData(ExampleIncome, ExampleBalance, map[]));
      && x.currentAssets == Fin(1000.0) && x.currentLiabilities == Fin(300.0) && x.cash == Fin(150.0)
      && x.accountsReceivable == Fin(0.0) && x.inventory == Fin(300.0) && x.totalDebt == Fin(100.0)
      && x.totalEquity == Fin(2000.0) && x.totalAssets == Fin(5000.0)
  {
    ExampleBalanceInputs();
    ExampleSums();
  }

  lemma ExampleReadIncome()
    ensures var x := Read(FinancialData(ExampleIncome, ExampleBalance, map[]));
      && x.interestExpense == Fin(40.0) && x.operatingIncome == Fin(120.0) && x.netIncome == Fin(80.0)
      && x.revenue == Fin(800.0) && x.grossProfit == Fin(400.0) && x.costOfGoods == Fin(350.0)
  {
    ExampleIncomeInputs();
  }

  lemma ExampleIncomeInputs()
    ensures Input(ExampleIncome, "Revenue") == Fin(800.0) && Input(ExampleIncome, "NetIncome") == Fin(80.0)
    ensures Input(ExampleIncome, "OperatingIncome") == Fin(120.0) && Input(ExampleIncome, "InterestExpense") == Fin(40.0)
    ensures Input(ExampleIncome, "GrossProfit") == Fin(400.0) && Input(ExampleIncome, "CostOfGoodsSold") == Fin(350.0)
  {
  }

  lemma ExampleBalanceInputs()
    ensures Input(ExampleBalance, "TotalCurrentAssets") == Fin(1000.0) && Input(ExampleBalance, "AccountsPayable") == Fin(200.0)
    ensures Input(ExampleBalance, "ShortTermDebt") == Fin(100.0) && Input(ExampleBalance, "LongTermDebt") == Fin(0.0)
    ensures Input(ExampleBalance, "Inventory") == Fin(300.0) && Input(ExampleBalance, "Cash") == Fin(150.0)
    ensures Input(ExampleBalance, "AccountsReceivable") == Fin(0.0) && Input(ExampleBalance, "TotalAssets") == Fin(5000.0)
    ensures Equity(ExampleBalance) == Fin(2000.0)
  {
  }

  lemma ExampleSums()
    ensures Add(Fin(200.0), Fin(100.0)) == Fin(300.0)
    ensures Add(Fin(100.0), Fin(0.0)) == Fin(100.0)
  {
  }

  lemma ExampleRatios()
    ensures var r := RatiosOf(ExampleReadings);
      && r.liquidity == Liquidity(1000.0 / 300.0, 700.0 / 300.0, 0.5)
      && r.leverage == Leverage(0.05, 0.02, 3.0)
      && r.profitability == Profitability(4.0, 1.6, 10.0, 50.0)
      && r.efficiency == Efficiency(0.16, 350.0 / 300.0, 0.0)
      && r.coverage == Coverage(3.0, 3.2)
  {
  }
}
