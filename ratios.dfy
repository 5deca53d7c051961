/**
  The ratio engine: `calculateFinancialRatios` and its guard `safeDivide`.
  Three flat statements (income statement, balance sheet, cash flow) are
  mapped to fifteen ratios in five categories. Every input is read through
  the `|| 0` fallback and every ratio through `SafeDivide`, so the engine is
  total: no input makes it fail, and every field of the result is finite.
 */
module Ratios {
  import opened JsNumber

  /** A statement: line-item name to amount (`Record<string, number>`). */
  type Statement = map<string, Num>

  /** The extraction result the engine consumes. */
  datatype FinancialData = FinancialData(incomeStatement: Statement, balanceSheet: Statement, cashFlow: Statement)

  datatype Liquidity = Liquidity(currentRatio: real, quickRatio: real, cashRatio: real)
  datatype Leverage = Leverage(debtToEquity: real, debtToAssets: real, interestCoverage: real)
  datatype Profitability = Profitability(roe: real, roa: real, netProfitMargin: real, grossProfitMargin: real)
  datatype Efficiency = Efficiency(assetTurnover: real, inventoryTurnover: real, receivablesTurnover: real)
  datatype Coverage = Coverage(timesInterestEarned: real, debtServiceCoverage: real)

  /** The `FinancialRatios` record. Every field is a plain real: the engine
      never produces NaN or an infinity. */
  datatype FinancialRatios = FinancialRatios(
    liquidity: Liquidity,
    leverage: Leverage,
    profitability: Profitability,
    efficiency: Efficiency,
    coverage: Coverage)

  /** Average interest rate assumed on total debt by `debtServiceCoverage`. */
  const AssumedDebtInterestRate: real := 0.1

  /** Profitability ratios are reported as percentages. */
  const Percent: real := 100.0

  /** The property read `statement.key`. */
  function Prop(s: Statement, key: string): (r: Value)
    ensures r.Undefined? <==> key !in s
    ensures key in s ==> r == Number(s[key])
  {
    if key in s then Number(s[key]) else Undefined
  }

  /** `statement.key || 0`: a missing, zero or NaN amount reads as 0, every
      other amount (an infinity included) as itself. */
  function Input(s: Statement, key: string): (r: Num)
    ensures r == if key in s && s[key] != NaN then s[key] else Fin(0.0)
  {
    OrZero(Prop(s, key))
  }

  /** `TotalEquity || ShareholdersEquity || 0`: TotalEquity when it is
      present, nonzero and not NaN; otherwise ShareholdersEquity read the
      same way; otherwise 0. */
  function Equity(bs: Statement): (r: Num)
    ensures r != NaN
    ensures Truthy(Prop(bs, "TotalEquity")) ==> r == bs["TotalEquity"]
    ensures !Truthy(Prop(bs, "TotalEquity")) ==> r == Input(bs, "ShareholdersEquity")
  {
    OrZero(Or(Prop(bs, "TotalEquity"), Prop(bs, "ShareholdersEquity")))
  }

  /** `safeDivide`: 0 when the denominator is 0 or either operand is not
      finite, the quotient otherwise. */
  function SafeDivide(numerator: Num, denominator: Num): (r: real)
    ensures denominator == Fin(0.0) ==> r == 0.0
    ensures !IsFinite(numerator) || !IsFinite(denominator) ==> r == 0.0
    ensures IsFinite(numerator) && IsFinite(denominator) && denominator.v != 0.0 ==> r == numerator.v / denominator.v
  {
    if denominator == Fin(0.0) || !IsFinite(numerator) || !IsFinite(denominator) then 0.0
    else numerator.v / denominator.v
  }

  /** The amounts the engine reads before computing any ratio, each one
      already through its `|| 0` fallback. */
  datatype Readings = Readings(
    currentAssets: Num,
    currentLiabilities: Num,
    cash: Num,
    accountsReceivable: Num,
    inventory: Num,
    totalDebt: Num,
    totalEquity: Num,
    totalAssets: Num,
    interestExpense: Num,
    operatingIncome: Num,
    netIncome: Num,
    revenue: Num,
    grossProfit: Num,
    costOfGoods: Num)

  /** Reads every amount from the income statement and the balance sheet;
      the cash-flow statement is destructured by the source but never read. */
  function Read(data: FinancialData): Readings
  {
    var income := data.incomeStatement;
    var bs := data.balanceSheet;
    Readings(
      currentAssets := Input(bs, "TotalCurrentAssets"),
      currentLiabilities := Add(Input(bs, "AccountsPayable"), Input(bs, "ShortTermDebt")),
      cash := Input(bs, "Cash"),
      accountsReceivable := Input(bs, "AccountsReceivable"),
      inventory := Input(bs, "Inventory"),
      totalDebt := Add(Input(bs, "ShortTermDebt"), Input(bs, "LongTermDebt")),
      totalEquity := Equity(bs),
      totalAssets := Input(bs, "TotalAssets"),
      interestExpense := Input(income, "InterestExpense"),
      operatingIncome := Input(income, "OperatingIncome"),
      netIncome := Input(income, "NetIncome"),
      revenue := Input(income, "Revenue"),
      grossProfit := Input(income, "GrossProfit"),
      costOfGoods := Input(income, "CostOfGoodsSold"))
  }

  /** Liquidity ratios: current, quick and cash ratio. */
  function LiquidityRatios(x: Readings): Liquidity {
    Liquidity(
      SafeDivide(x.currentAssets, x.currentLiabilities),
      SafeDivide(Sub(x.currentAssets, x.inventory), x.currentLiabilities),
      SafeDivide(x.cash, x.currentLiabilities))
  }

  /** Leverage ratios: debt to equity, debt to assets, interest coverage. */
  function LeverageRatios(x: Readings): Leverage {
    Leverage(
      SafeDivide(x.totalDebt, x.totalEquity),
      SafeDivide(x.totalDebt, x.totalAssets),
      SafeDivide(x.operatingIncome, x.interestExpense))
  }

  /** Profitability ratios, as percentages. */
  function ProfitabilityRatios(x: Readings): Profitability {
    Profitability(
      SafeDivide(x.netIncome, x.totalEquity) * Percent,
      SafeDivide(x.netIncome, x.totalAssets) * Percent,
      SafeDivide(x.netIncome, x.revenue) * Percent,
      SafeDivide(x.grossProfit, x.revenue) * Percent)
  }

  /** Efficiency ratios: asset, inventory and receivables turnover. */
  function EfficiencyRatios(x: Readings): Efficiency {
    Efficiency(
      SafeDivide(x.revenue, x.totalAssets),
      SafeDivide(x.costOfGoods, x.inventory),
      SafeDivide(x.revenue, x.accountsReceivable))
  }

  /** Coverage ratios: times interest earned and debt service coverage. */
  function CoverageRatios(x: Readings): Coverage {
    Coverage(
      SafeDivide(x.operatingIncome, x.interestExpense),
      SafeDivide(
        Add(x.operatingIncome, x.interestExpense),
        Add(x.interestExpense, Mul(x.totalDebt, Fin(AssumedDebtInterestRate)))))
  }

  /** The five categories computed from the readings. */
  function RatiosOf(x: Readings): FinancialRatios {
    FinancialRatios(
      LiquidityRatios(x),
      LeverageRatios(x),
      ProfitabilityRatios(x),
      EfficiencyRatios(x),
      CoverageRatios(x))
  }

  /** `calculateFinancialRatios`. The cash-flow statement is never read. */
  function Compute(data: FinancialData): (r: FinancialRatios)
    ensures r.leverage.interestCoverage == r.coverage.timesInterestEarned
    ensures Input(data.incomeStatement, "InterestExpense") == Fin(0.0) ==>
      r.leverage.interestCoverage == 0.0 && r.coverage.timesInterestEarned == 0.0
  {
    var x := Read(data);
    assert x.interestExpense == Input(data.incomeStatement, "InterestExpense");
    RatiosOf(x)
  }
}
