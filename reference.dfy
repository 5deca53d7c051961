/**
  The ratio formulas stated directly over real amounts, one line per field,
  with absent line items read as 0 and a plain zero-denominator guard. For
  statements whose amounts are all finite this is what the engine computes
  (lemma `RatioProperties.FiniteInputMatchesReference`).
 */
module RatioReference {
  import opened JsNumber
  import opened Ratios

  /** A statement whose amounts are all finite. */
  type Amounts = map<string, real>

  /** The amount of a line item, 0 when it is absent. */
  function Get(m: Amounts, key: string): real {
    if key in m then m[key] else 0.0
  }

  /** Division with 0 for a zero denominator. */
  function Div(n: real, d: real): real {
    if d == 0.0 then 0.0 else n / d
  }

  /** TotalEquity if nonzero, else ShareholdersEquity. */
  function EquityAmount(bs: Amounts): real {
    if Get(bs, "TotalEquity") != 0.0 then Get(bs, "TotalEquity") else Get(bs, "ShareholdersEquity")
  }

  /** AccountsPayable + ShortTermDebt. */
  function LiabilitiesAmount(bs: Amounts): real {
    Get(bs, "AccountsPayable") + Get(bs, "ShortTermDebt")
  }

  /** ShortTermDebt + LongTermDebt. */
  function DebtAmount(bs: Amounts): real {
    Get(bs, "ShortTermDebt") + Get(bs, "LongTermDebt")
  }

  function ReferenceLiquidity(bs: Amounts): Liquidity {
    Liquidity(
      Div(Get(bs, "TotalCurrentAssets"), LiabilitiesAmount(bs)),
      Div(Get(bs, "TotalCurrentAssets") - Get(bs, "Inventory"), LiabilitiesAmount(bs)),
      Div(Get(bs, "Cash"), LiabilitiesAmount(bs)))
  }

  function ReferenceLeverage(income: Amounts, bs: Amounts): Leverage {
    Leverage(
      Div(DebtAmount(bs), EquityAmount(bs)),
      Div(DebtAmount(bs), Get(bs, "TotalAssets")),
      Div(Get(income, "OperatingIncome"), Get(income, "InterestExpense")))
  }

  function ReferenceProfitability(income: Amounts, bs: Amounts): Profitability {
    Profitability(
      100.0 * Div(Get(income, "NetIncome"), EquityAmount(bs)),
      100.0 * Div(Get(income, "NetIncome"), Get(bs, "TotalAssets")),
      100.0 * Div(Get(income, "NetIncome"), Get(income, "Revenue")),
      100.0 * Div(Get(income, "GrossProfit"), Get(income, "Revenue")))
  }

  function ReferenceEfficiency(income: Amounts, bs: Amounts): Efficiency {
    Efficiency(
      Div(Get(income, "Revenue"), Get(bs, "TotalAssets")),
      Div(Get(income, "CostOfGoodsSold"), Get(bs, "Inventory")),
      Div(Get(income, "Revenue"), Get(bs, "AccountsReceivable")))
  }

  function ReferenceCoverage(income: Amounts, bs: Amounts): Coverage {
    var operating := Get(income, "OperatingIncome");
    var interest := Get(income, "InterestExpense");
    Coverage(Div(operating, interest), Div(operating + interest, interest + 0.1 * DebtAmount(bs)))
  }

  /** The fifteen ratios by their formulas. */
  function Reference(income: Amounts, bs: Amounts): FinancialRatios {
    FinancialRatios(
      ReferenceLiquidity(bs),
      ReferenceLeverage(income, bs),
      ReferenceProfitability(income, bs),
      ReferenceEfficiency(income, bs),
      ReferenceCoverage(income, bs))
  }

  /** Every amount of the statement is finite. */
  predicate AllFinite(s: Statement) {
    forall k :: k in s ==> IsFinite(s[k])
  }

  /** The real amounts of an all-finite statement. */
  function AmountsOf(s: Statement): (m: Amounts)
    requires AllFinite(s)
    ensures m.Keys == s.Keys
    ensures forall k :: k in s ==> s[k] == Fin(m[k])
  {
    map k | k in s :: s[k].v
  }
}
