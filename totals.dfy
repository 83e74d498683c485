/** The four budget totals, computed as the generator and the form's totals memo
    both compute them: two `reduce` folds from 0 and two products. */
module Totals {
  import opened BudgetTypes

  /** `xs.reduce((acc, x) => acc + f(x), acc)`: a left fold, in list order. */
  function Reduce<T>(xs: seq<T>, f: T -> int, acc: int): int
    decreases |xs|
  {
    if |xs| == 0 then acc else Reduce(xs[1..], f, acc + f(xs[0]))
  }

  /** The mathematical sum of `f` over `xs`, the reference for `Reduce`. */
  function Sum<T>(xs: seq<T>, f: T -> int): int
    decreases |xs|
  {
    if |xs| == 0 then 0 else f(xs[0]) + Sum(xs[1..], f)
  }

  lemma {:induction false} ReduceIsSum<T>(xs: seq<T>, f: T -> int, acc: int)
    ensures Reduce(xs, f, acc) == acc + Sum(xs, f)
    decreases |xs|
  {
    if |xs| > 0 {
      ReduceIsSum(xs[1..], f, acc + f(xs[0]));
    }
  }

  lemma {:induction false} SumAppend<T>(a: seq<T>, b: seq<T>, f: T -> int)
    ensures Sum(a + b, f) == Sum(a, f) + Sum(b, f)
    decreases |a|
  {
    if |a| > 0 {
      assert (a + b)[1..] == a[1..] + b;
      SumAppend(a[1..], b, f);
    } else {
      assert a + b == b;
    }
  }

  lemma {:induction false} SumNonnegative<T>(xs: seq<T>, f: T -> int)
    requires forall i :: 0 <= i < |xs| ==> f(xs[i]) >= 0
    ensures Sum(xs, f) >= 0
    decreases |xs|
  {
    if |xs| > 0 {
      assert forall i :: 0 <= i < |xs| - 1 ==> xs[1..][i] == xs[i + 1];
      SumNonnegative(xs[1..], f);
    }
  }

  /** quantity x unitPrice of one material line (cents). */
  function LineTotal(m: MaterialItem): int
  {
    m.quantity * m.unitPrice
  }

  function Cost(l: LaborItem): int
  {
    l.cost
  }

  function MaterialsTotal(ms: seq<MaterialItem>): int
  {
    Reduce(ms, LineTotal, 0)
  }

  function LaborTotal(ls: seq<LaborItem>): int
  {
    Reduce(ls, Cost, 0)
  }

  function DietTotal(d: DietInfo): int
  {
    d.workersCount * d.days * d.costPerDay
  }

  /** The grand total: the three section totals added up. */
  function GrandTotal(ms: seq<MaterialItem>, ls: seq<LaborItem>, d: DietInfo): int
  {
    MaterialsTotal(ms) + LaborTotal(ls) + DietTotal(d)
  }

  datatype BudgetTotals = BudgetTotals(materials: int, labor: int, diet: int, grand: int)

  /** The four totals. The materials total is the sum of quantity x unit price over
      the lines, the labor total the sum of costs, and the grand total their sum
      with the diet total. */
  function ComputeTotals(ms: seq<MaterialItem>, ls: seq<LaborItem>, d: DietInfo): (r: BudgetTotals)
    ensures r.materials == Sum(ms, LineTotal)
    ensures r.labor == Sum(ls, Cost)
    ensures r.diet == d.workersCount * d.days * d.costPerDay
    ensures r.grand == r.materials + r.labor + r.diet
  {
    ReduceIsSum(ms, LineTotal, 0);
    ReduceIsSum(ls, Cost, 0);
    var mt := MaterialsTotal(ms);
    var lt := LaborTotal(ls);
    var dt := DietTotal(d);
    BudgetTotals(mt, lt, dt, mt + lt + dt)
  }

  /** With non-negative quantities, prices, costs and diet figures every total is non-negative. */
  lemma TotalsNonnegative(ms: seq<MaterialItem>, ls: seq<LaborItem>, d: DietInfo)
    requires forall i :: 0 <= i < |ms| ==> ms[i].quantity >= 0 && ms[i].unitPrice >= 0
    requires forall i :: 0 <= i < |ls| ==> ls[i].cost >= 0
    requires d.workersCount >= 0 && d.days >= 0 && d.costPerDay >= 0
    ensures var t := ComputeTotals(ms, ls, d);
      t.materials >= 0 && t.labor >= 0 && t.diet >= 0 && t.grand >= 0
  {
    SumNonnegative(ms, LineTotal);
    SumNonnegative(ls, Cost);
    assert d.workersCount * d.days >= 0;
  }

  /** The totals of two concatenated lists are the sums of their totals. */
  lemma TotalsAppend(ms1: seq<MaterialItem>, ms2: seq<MaterialItem>, ls1: seq<LaborItem>, ls2: seq<LaborItem>, d: DietInfo)
    ensures ComputeTotals(ms1 + ms2, ls1 + ls2, d).materials
         == ComputeTotals(ms1, ls1, d).materials + ComputeTotals(ms2, ls2, d).materials
    ensures ComputeTotals(ms1 + ms2, ls1 + ls2, d).labor
         == ComputeTotals(ms1, ls1, d).labor + ComputeTotals(ms2, ls2, d).labor
  {
    SumAppend(ms1, ms2, LineTotal);
    SumAppend(ls1, ls2, Cost);
  }

  /** Worked figures: 3 x 10.50 + 1 x 5.00 = 36.50,
      100.00 + 50.25 = 150.25, 4 x 5 x 25.00 = 500.00, and an all-zero budget totals 0.00. */
  lemma WorkedExamples()
    ensures ComputeTotals([MaterialItem("a", "", 3, "unidad", 1050), MaterialItem("b", "", 1, "unidad", 500)],
                          [LaborItem("c", "", 10000), LaborItem("d", "", 5025)],
                          DietInfo(4, 5, 2500))
         == BudgetTotals(3650, 15025, 50000, 68675)
    ensures ComputeTotals([], [], DietInfo(0, 0, 0)).grand == 0
  {
  }
}
