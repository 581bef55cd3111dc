/**
 * The budget queries of Gestao_Consumos/views.py: the dashboard sums every
 * budget of the resident in the month (Sum('valor')), while the PDF report
 * builds metas_ano_dict keyed by (month, type), where a later row overwrites
 * an earlier one and a missing key reads as 0.
 */
module Budgets {
  import opened Wrappers
  import opened Models
  import opened Lookup

  /** A budget of the resident for the given year and month. */
  predicate InMonth(b: Budget, residente: nat, ano: int, mes: int)
  {
    b.residente == residente && b.timestamp.year == ano && b.timestamp.month == mes
  }

  /** A budget that lands on the metas_ano_dict key (mes, tipo). */
  predicate MetaKey(b: Budget, residente: nat, ano: int, mes: int, tipo: UtilityType)
  {
    InMonth(b, residente, ano, mes) && b.tipo == tipo
  }

  /** Sum('valor') over budgets; 0 for none. */
  function BudgetSum(bs: seq<Budget>): int
    decreases |bs|
  {
    if bs == [] then 0 else bs[0].valor + BudgetSum(bs[1..])
  }

  lemma {:induction false} BudgetSumAppend(a: seq<Budget>, b: seq<Budget>)
    ensures BudgetSum(a + b) == BudgetSum(a) + BudgetSum(b)
    decreases |a|
  {
    if a == [] {
      assert a + b == b;
    } else {
      assert (a + b)[1..] == a[1..] + b;
      BudgetSumAppend(a[1..], b);
    }
  }

  /** meta_orcamento_total of the dashboard: all of the month's budgets, every type, summed. */
  function MonthBudgetTotal(bs: seq<Budget>, residente: nat, ano: int, mes: int): (total: int)
    ensures (forall b :: b in bs ==> !InMonth(b, residente, ano, mes)) ==> total == 0
  {
    FilterMembers(bs, b => InMonth(b, residente, ano, mes));
    assert Filter(bs, b => InMonth(b, residente, ano, mes)) != [] ==>
             Filter(bs, b => InMonth(b, residente, ano, mes))[0] in Filter(bs, b => InMonth(b, residente, ano, mes));
    BudgetSum(Filter(bs, b => InMonth(b, residente, ano, mes)))
  }

  /**
   * metas_ano_dict.get((mes, tipo), 0.00): the value of the last budget with
   * that key, or 0 when there is none.
   */
  function BudgetMeta(bs: seq<Budget>, residente: nat, ano: int, mes: int, tipo: UtilityType): (meta: int)
    ensures meta == 0 || exists i :: 0 <= i < |bs| && MetaKey(bs[i], residente, ano, mes, tipo) && meta == bs[i].valor
    decreases |bs|
  {
    if bs == [] then 0
    else if MetaKey(bs[|bs| - 1], residente, ano, mes, tipo) then bs[|bs| - 1].valor
    else BudgetMeta(bs[..|bs| - 1], residente, ano, mes, tipo)
  }

  /** With no budget on the key the meta reads 0; otherwise it is the value of the last budget on the key. */
  lemma {:induction false} BudgetMetaIsLast(bs: seq<Budget>, residente: nat, ano: int, mes: int, tipo: UtilityType)
    ensures (forall b :: b in bs ==> !MetaKey(b, residente, ano, mes, tipo)) ==> BudgetMeta(bs, residente, ano, mes, tipo) == 0
    ensures (exists b :: b in bs && MetaKey(b, residente, ano, mes, tipo)) ==>
              exists i :: 0 <= i < |bs| && MetaKey(bs[i], residente, ano, mes, tipo) &&
                BudgetMeta(bs, residente, ano, mes, tipo) == bs[i].valor &&
                forall j :: i < j < |bs| ==> !MetaKey(bs[j], residente, ano, mes, tipo)
    decreases |bs|
  {
    if bs != [] && !MetaKey(bs[|bs| - 1], residente, ano, mes, tipo) {
      var n := |bs| - 1;
      BudgetMetaIsLast(bs[..n], residente, ano, mes, tipo);
      assert forall b :: b in bs[..n] ==> b in bs;
      assert forall b :: b in bs && b != bs[n] ==> b in bs[..n];
      if exists b :: b in bs && MetaKey(b, residente, ano, mes, tipo) {
        var i :| 0 <= i < n && MetaKey(bs[..n][i], residente, ano, mes, tipo) &&
                 BudgetMeta(bs[..n], residente, ano, mes, tipo) == bs[..n][i].valor &&
                 forall j :: i < j < n ==> !MetaKey(bs[..n][j], residente, ano, mes, tipo);
        assert bs[i] == bs[..n][i];
        forall j | i < j < |bs| ensures !MetaKey(bs[j], residente, ano, mes, tipo) {
          if j < n { assert bs[j] == bs[..n][j]; }
        }
      }
    }
  }

  /** Two budgets for the same resident, type, year and month. */
  predicate SameMonthSlot(a: Budget, b: Budget)
  {
    a.residente == b.residente && a.tipo == b.tipo &&
    a.timestamp.year == b.timestamp.year && a.timestamp.month == b.timestamp.month
  }

  /** At most one budget per resident, type and month. */
  predicate OnePerMonth(bs: seq<Budget>)
  {
    forall i, j :: 0 <= i < j < |bs| ==> !SameMonthSlot(bs[i], bs[j])
  }

  /** One budget per month is stronger than the model's unique_together. */
  lemma OnePerMonthIsUniqueTogether(bs: seq<Budget>)
    requires OnePerMonth(bs)
    ensures UniqueTogether(bs)
  {
  }

  lemma BudgetMetaSnoc(a: seq<Budget>, x: Budget, residente: nat, ano: int, mes: int, tipo: UtilityType)
    ensures BudgetMeta(a + [x], residente, ano, mes, tipo) ==
              if MetaKey(x, residente, ano, mes, tipo) then x.valor else BudgetMeta(a, residente, ano, mes, tipo)
  {
    assert (a + [x])[..|a|] == a;
  }

  lemma MonthBudgetTotalSnoc(a: seq<Budget>, x: Budget, residente: nat, ano: int, mes: int)
    ensures MonthBudgetTotal(a + [x], residente, ano, mes) ==
              MonthBudgetTotal(a, residente, ano, mes) + if InMonth(x, residente, ano, mes) then x.valor else 0
  {
    FilterAppend(a, [x], b => InMonth(b, residente, ano, mes));
    BudgetSumAppend(Filter(a, b => InMonth(b, residente, ano, mes)), Filter([x], b => InMonth(b, residente, ano, mes)));
  }

  /** The last budget of a one-per-month table has no earlier budget with its key. */
  lemma LastHasNoEarlierTwin(bs: seq<Budget>, residente: nat, ano: int, mes: int)
    requires OnePerMonth(bs) && bs != []
    requires InMonth(bs[|bs| - 1], residente, ano, mes)
    ensures BudgetMeta(bs[..|bs| - 1], residente, ano, mes, bs[|bs| - 1].tipo) == 0
  {
    var n := |bs| - 1;
    forall b | b in bs[..n] ensures !MetaKey(b, residente, ano, mes, bs[n].tipo) {
      var i :| 0 <= i < n && bs[..n][i] == b;
      assert !SameMonthSlot(bs[i], bs[n]);
    }
    BudgetMetaIsLast(bs[..n], residente, ano, mes, bs[n].tipo);
  }

  /**
   * When each (resident, type, month) has at most one budget, the dashboard's
   * month total is the sum of the three per-type metas of the report.
   */
  lemma {:induction false} DashboardMetaSplits(bs: seq<Budget>, residente: nat, ano: int, mes: int)
    requires OnePerMonth(bs)
    ensures MonthBudgetTotal(bs, residente, ano, mes) ==
              BudgetMeta(bs, residente, ano, mes, Luz) + BudgetMeta(bs, residente, ano, mes, Agua) +
              BudgetMeta(bs, residente, ano, mes, Gas)
    decreases |bs|
  {
    if bs != [] {
      var n := |bs| - 1;
      var a, x := bs[..n], bs[n];
      assert bs == a + [x];
      assert OnePerMonth(a) by {
        forall i, j | 0 <= i < j < |a| ensures !SameMonthSlot(a[i], a[j]) {
          assert a[i] == bs[i] && a[j] == bs[j];
        }
      }
      DashboardMetaSplits(a, residente, ano, mes);
      MonthBudgetTotalSnoc(a, x, residente, ano, mes);
      BudgetMetaSnoc(a, x, residente, ano, mes, Luz);
      BudgetMetaSnoc(a, x, residente, ano, mes, Agua);
      BudgetMetaSnoc(a, x, residente, ano, mes, Gas);
      if InMonth(x, residente, ano, mes) {
        LastHasNoEarlierTwin(bs, residente, ano, mes);
      }
    }
  }
}
