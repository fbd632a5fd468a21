/**
 * The investments application's portfolio data: the four initial items,
 * the `InvestmentDataManager` holding the current list, the fixed/variable
 * summary, and the simulated market update.  Values are integers (reais).
 */
module Investments {

  datatype InvestmentType = Fixed | Variable

  datatype InvestmentItem = InvestmentItem(id: string, name: string, value: int, color: string, kind: InvestmentType)

  /** `initialInvestmentData`. */
  const InitialData: seq<InvestmentItem> := [
    InvestmentItem("1", "Fundos de investimento", 15000, "#0088FE", Variable),
    InvestmentItem("2", "Tesouro Direto", 10000, "#8884d8", Fixed),
    InvestmentItem("3", "Previdência Privada", 8000, "#FF8042", Fixed),
    InvestmentItem("4", "Bolsa de Valores", 17000, "#FFBB28", Variable)
  ]

  /** `defaultInvestmentGoals`. */
  const FixedIncomeGoal := 25000
  const VariableIncomeGoal := 35000

  /** `items.filter(item => item.type === kind).reduce((sum, item) => sum + item.value, 0)`. */
  function SumOfKind(items: seq<InvestmentItem>, kind: InvestmentType): int {
    if items == [] then 0
    else (if items[0].kind == kind then items[0].value else 0) + SumOfKind(items[1..], kind)
  }

  /** The sum of every value, whatever its kind. */
  function SumAll(items: seq<InvestmentItem>): int {
    if items == [] then 0 else items[0].value + SumAll(items[1..])
  }

  datatype InvestmentSummary = InvestmentSummary(fixedIncome: int, variableIncome: int, total: int)

  /** `getInvestmentSummary` over a list of items. */
  function SummaryOf(items: seq<InvestmentItem>): (s: InvestmentSummary)
    ensures s.fixedIncome == SumOfKind(items, Fixed) && s.variableIncome == SumOfKind(items, Variable)
    ensures s.total == SumAll(items)
  {
    KindsPartitionSum(items);
    var fixedIncome := SumOfKind(items, Fixed);
    var variableIncome := SumOfKind(items, Variable);
    InvestmentSummary(fixedIncome, variableIncome, fixedIncome + variableIncome)
  }

  /** `Math.max(1000, proposed)`. */
  function AtLeast1000(proposed: int): (v: int)
    ensures v >= 1000 && v >= proposed && (v == 1000 || v == proposed)
  {
    if 1000 >= proposed then 1000 else proposed
  }

  /**
   * `simulateUpdate` over a list of items: `rounded(i)` is
   * `Math.round(item.value * (1 + variation))` for the `i`-th item (the
   * random variation is not modelled), and the new value is at least 1000.
   */
  function Simulated(items: seq<InvestmentItem>, rounded: nat -> int): (r: seq<InvestmentItem>)
    ensures |r| == |items|
    ensures forall i :: 0 <= i < |r| ==> r[i].value >= 1000
    ensures forall i :: 0 <= i < |r| ==> rounded(i) >= 1000 ==> r[i].value == rounded(i)
    ensures forall i :: 0 <= i < |r| ==>
      r[i].id == items[i].id && r[i].name == items[i].name && r[i].color == items[i].color && r[i].kind == items[i].kind
  {
    if items == [] then []
    else
      var k := |items| - 1;
      Simulated(items[..k], rounded) + [items[k].(value := AtLeast1000(rounded(k)))]
  }

  /** `InvestmentDataManager`: the current list of items. */
  class InvestmentDataManager {
    var data: seq<InvestmentItem>

    /** The list starts as a copy of the initial data. */
    constructor()
      ensures data == InitialData
    {
      data := InitialData;
    }

    /** `updateData`: the list becomes a copy of `newData`, which `getData` then returns. */
    method UpdateData(newData: seq<InvestmentItem>)
      modifies this
      ensures data == newData
    {
      data := newData;
    }

    /** `resetData`: back to the four initial items. */
    method ResetData()
      modifies this
      ensures data == InitialData && SummaryOf(data) == InvestmentSummary(18000, 32000, 50000)
    {
      data := InitialData;
      InitialSummary();
    }

    /** `simulateUpdate`: the proposed list, leaving the held one as it is. */
    method SimulateUpdate(rounded: nat -> int) returns (r: seq<InvestmentItem>)
      ensures r == Simulated(data, rounded)
      ensures SumAll(r) >= 1000 * |data|
    {
      r := Simulated(data, rounded);
      SumAllAtLeast(r);
    }
  }

  /* ---------------------------------- properties ---------------------------------- */

  /** Every item is fixed or variable, so the two kinds' sums make up the whole. */
  lemma {:induction false} KindsPartitionSum(items: seq<InvestmentItem>)
    ensures SumOfKind(items, Fixed) + SumOfKind(items, Variable) == SumAll(items)
  {
    if items != [] {
      KindsPartitionSum(items[1..]);
    }
  }

  /** The initial portfolio: 18000 fixed, 32000 variable, 50000 in all. */
  lemma InitialSummary()
    ensures SummaryOf(InitialData) == InvestmentSummary(18000, 32000, 50000)
  {
    var d := InitialData;
    assert d[1..][1..][1..][1..] == [];
    assert SumOfKind(d[1..][1..][1..], Fixed) == 0 && SumOfKind(d[1..][1..][1..], Variable) == 17000;
    assert SumOfKind(d[1..][1..], Fixed) == 8000 && SumOfKind(d[1..][1..], Variable) == 17000;
    assert SumOfKind(d[1..], Fixed) == 18000 && SumOfKind(d[1..], Variable) == 17000;
  }

  /** With every value at least 1000, the total is at least 1000 per item. */
  lemma {:induction false} SumAllAtLeast(items: seq<InvestmentItem>)
    requires forall i :: 0 <= i < |items| ==> items[i].value >= 1000
    ensures SumAll(items) >= 1000 * |items|
  {
    if items != [] {
      SumAllAtLeast(items[1..]);
    }
  }
}
