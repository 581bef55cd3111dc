/**
 * The report computations of Gestao_Consumos/views.py: the dashboard of one
 * month, the monthly and annual PDF reports (gerar_pdf) and the monthly
 * trend of relatorios. Rendering is left out; what is kept is the data each
 * view hands to its template.
 */
module Reports {
  import opened Wrappers
  import opened Models
  import opened Lookup
  import opened Costs
  import opened Budgets
  import opened Alerts

  /** The tables the reports read. */
  datatype Tables = Tables(records: seq<ConsumptionRecord>, budgets: seq<Budget>, contracts: seq<Contract>, tariffs: seq<Tariff>)

  predicate InMonthOf(r: ConsumptionRecord, residente: nat, ano: int, mes: int)
  {
    r.device.residente == residente && r.timestamp.year == ano && r.timestamp.month == mes
  }

  predicate InYearOf(r: ConsumptionRecord, residente: nat, ano: int)
  {
    r.device.residente == residente && r.timestamp.year == ano
  }

  /** registos_mes of the dashboard: the resident's records of one month. */
  function MonthRecords(db: Tables, residente: nat, ano: int, mes: int): seq<ConsumptionRecord>
  {
    Filter(db.records, r => InMonthOf(r, residente, ano, mes))
  }

  /** registos_base_geral / registos_ano: the resident's records of one year. */
  function YearRecords(db: Tables, residente: nat, ano: int): seq<ConsumptionRecord>
  {
    Filter(db.records, r => InYearOf(r, residente, ano))
  }

  /** The month filter applied to a year's records. */
  function MonthOfYear(yearRecords: seq<ConsumptionRecord>, mes: int): seq<ConsumptionRecord>
  {
    Filter(yearRecords, (r: ConsumptionRecord) => r.timestamp.month == mes)
  }

  /** Filtering a year and then a month selects the same records as the dashboard's month filter. */
  lemma MonthOfYearIsMonth(db: Tables, residente: nat, ano: int, mes: int)
    ensures MonthOfYear(YearRecords(db, residente, ano), mes) == MonthRecords(db, residente, ano, mes)
  {
    FilterFilter(db.records, r => InYearOf(r, residente, ano), (r: ConsumptionRecord) => r.timestamp.month == mes,
                 r => InMonthOf(r, residente, ano, mes));
  }

  /** What the dashboard shows for one month. */
  datatype Dashboard = Dashboard(
    consumoLuz: int, consumoAgua: int, consumoGas: int,
    costs: map<UtilityType, int>, total: int, meta: int, status: DashboardStatus)

  /**
   * dashboard: the month's costs, their total, the month's budget total over
   * all types and the three-way alert between them.
   */
  function DashboardView(db: Tables, residente: nat, ano: int, mes: int): (d: Dashboard)
    ensures d.costs == CostsByType(MonthRecords(db, residente, ano, mes), residente, db.contracts, db.tariffs)
    ensures d.consumoLuz == NetElectricity(MonthRecords(db, residente, ano, mes))
    ensures d.consumoAgua == ConsumerSum(Agua, MonthRecords(db, residente, ano, mes))
    ensures d.consumoGas == ConsumerSum(Gas, MonthRecords(db, residente, ano, mes))
    ensures d.costs.Keys == {Luz, Agua, Gas}
    ensures d.total == d.costs[Luz] + d.costs[Agua] + d.costs[Gas]
    ensures d.meta == MonthBudgetTotal(db.budgets, residente, ano, mes)
    ensures d.consumoLuz >= 0
    ensures d.status == SemMeta <==> d.meta <= 0
    ensures d.status == Excedido <==> d.total > d.meta && d.meta > 0
    ensures d.status == Dentro <==> d.meta > 0 && d.total <= d.meta
  {
    var rs := MonthRecords(db, residente, ano, mes);
    var costs := CostsByType(rs, residente, db.contracts, db.tariffs);
    var total := costs[Luz] + costs[Agua] + costs[Gas];
    var meta := MonthBudgetTotal(db.budgets, residente, ano, mes);
    Dashboard(NetElectricity(rs), ConsumerSum(Agua, rs), ConsumerSum(Gas, rs), costs, total, meta, DashboardAlert(total, meta))
  }

  /** custos_mensais / custos_calculados of gerar_pdf for one month. */
  function MonthCosts(db: Tables, residente: nat, ano: int, mes: int): (costs: map<UtilityType, int>)
    ensures costs == CostsByType(MonthRecords(db, residente, ano, mes), residente, db.contracts, db.tariffs)
  {
    MonthOfYearIsMonth(db, residente, ano, mes);
    CostsByType(MonthOfYear(YearRecords(db, residente, ano), mes), residente, db.contracts, db.tariffs)
  }

  /** The sum of a month's three costs (trend_data[mes] of relatorios). */
  function MonthTotal(db: Tables, residente: nat, ano: int, mes: int): (total: int)
    ensures total == DashboardView(db, residente, ano, mes).total
  {
    var costs := MonthCosts(db, residente, ano, mes);
    costs[Luz] + costs[Agua] + costs[Gas]
  }

  /** The report's budget of each type for one month (metas_ano_dict.get((mes, tipo), 0.00)). */
  function MonthMetas(budgets: seq<Budget>, residente: nat, ano: int, mes: int): (metas: map<UtilityType, int>)
    ensures metas.Keys == {Luz, Agua, Gas}
    ensures forall t :: t in metas ==> metas[t] == BudgetMeta(budgets, residente, ano, mes, t)
  {
    map[
      Luz := BudgetMeta(budgets, residente, ano, mes, Luz),
      Agua := BudgetMeta(budgets, residente, ano, mes, Agua),
      Gas := BudgetMeta(budgets, residente, ano, mes, Gas)
    ]
  }

  /** The alerts of one month, Luz, Agua and Gas in that order, from its costs and budgets. */
  function AlertsFor(costs: map<UtilityType, int>, metas: map<UtilityType, int>): (alerts: seq<TypeAlert>)
    requires costs.Keys == {Luz, Agua, Gas} && metas.Keys == {Luz, Agua, Gas}
    ensures |alerts| == 3
    ensures forall i :: 0 <= i < 3 ==> alerts[i] == ReportAlert(AllTypes[i], costs[AllTypes[i]], metas[AllTypes[i]])
  {
    [ReportAlert(Luz, costs[Luz], metas[Luz]), ReportAlert(Agua, costs[Agua], metas[Agua]), ReportAlert(Gas, costs[Gas], metas[Gas])]
  }

  /** The per-type alerts of one month of the report. */
  function MonthAlerts(db: Tables, residente: nat, ano: int, mes: int): (alerts: seq<TypeAlert>)
    ensures |alerts| == 3
  {
    AlertsFor(MonthCosts(db, residente, ano, mes), MonthMetas(db.budgets, residente, ano, mes))
  }

  /** The sum of the costs in a list of alerts. */
  function AlertTotal(alerts: seq<TypeAlert>): int
    decreases |alerts|
  {
    if alerts == [] then 0 else AlertTotal(alerts[..|alerts| - 1]) + alerts[|alerts| - 1].custo
  }

  lemma AlertTotalSnoc(alerts: seq<TypeAlert>, a: TypeAlert)
    ensures AlertTotal(alerts + [a]) == AlertTotal(alerts) + a.custo
  {
    assert (alerts + [a])[..|alerts|] == alerts;
  }

  /** The alerts of a month add up to the sum of its three costs. */
  lemma AlertsForTotal(costs: map<UtilityType, int>, metas: map<UtilityType, int>)
    requires costs.Keys == {Luz, Agua, Gas} && metas.Keys == {Luz, Agua, Gas}
    ensures AlertTotal(AlertsFor(costs, metas)) == costs[Luz] + costs[Agua] + costs[Gas]
  {
    var a := AlertsFor(costs, metas);
    assert a == [a[0]] + [a[1]] + [a[2]];
    AlertTotalSnoc([], a[0]);
    AlertTotalSnoc([a[0]], a[1]);
    AlertTotalSnoc([a[0]] + [a[1]], a[2]);
  }

  lemma MonthAlertsTotal(db: Tables, residente: nat, ano: int, mes: int)
    ensures AlertTotal(MonthAlerts(db, residente, ano, mes)) == MonthTotal(db, residente, ano, mes)
  {
    AlertsForTotal(MonthCosts(db, residente, ano, mes), MonthMetas(db.budgets, residente, ano, mes));
  }

  /** The monthly PDF report: the three alerts and custo_total. */
  datatype MonthlyReport = MonthlyReport(alerts: seq<TypeAlert>, total: int)

  function MonthlyReportOf(db: Tables, residente: nat, ano: int, mes: int): (r: MonthlyReport)
    ensures r.alerts == MonthAlerts(db, residente, ano, mes)
    ensures r.total == MonthTotal(db, residente, ano, mes)
  {
    MonthAlertsTotal(db, residente, ano, mes);
    var alerts := MonthAlerts(db, residente, ano, mes);
    MonthlyReport(alerts, AlertTotal(alerts))
  }

  /**
   * The dashboard and the monthly report of the same month show the same
   * total cost and, with one budget per month, the same budget in all.
   */
  lemma DashboardMatchesMonthlyReport(db: Tables, residente: nat, ano: int, mes: int)
    ensures DashboardView(db, residente, ano, mes).total == MonthlyReportOf(db, residente, ano, mes).total
    ensures OnePerMonth(db.budgets) ==>
              DashboardView(db, residente, ano, mes).meta ==
                MonthlyReportOf(db, residente, ano, mes).alerts[0].meta +
                MonthlyReportOf(db, residente, ano, mes).alerts[1].meta +
                MonthlyReportOf(db, residente, ano, mes).alerts[2].meta
  {
    MonthOfYearIsMonth(db, residente, ano, mes);
    if OnePerMonth(db.budgets) {
      DashboardMetaSplits(db.budgets, residente, ano, mes);
    }
  }

  /** A month enters the annual report when some type has a positive cost or budget. */
  predicate HasData(alerts: seq<TypeAlert>)
  {
    exists a :: a in alerts && (a.custo > 0 || a.meta > 0)
  }

  /** detalhe_mensal: a month, its total (custo_total_mes) and its alerts (utilidades). */
  datatype MonthDetail = MonthDetail(mes: int, total: int, alerts: seq<TypeAlert>)

  function DetailOf(db: Tables, residente: nat, ano: int, mes: int): MonthDetail
  {
    MonthDetail(mes, MonthTotal(db, residente, ano, mes), MonthAlerts(db, residente, ano, mes))
  }

  /** The details of months 1..n, in month order, for a given detail of each month. */
  function Months(detail: int -> MonthDetail, n: nat): (ms: seq<MonthDetail>)
    ensures |ms| == n
    decreases n
  {
    if n == 0 then [] else Months(detail, n - 1) + [detail(n)]
  }

  lemma {:induction false} MonthsAt(detail: int -> MonthDetail, n: nat, m: int)
    requires 1 <= m <= n
    ensures Months(detail, n)[m - 1] == detail(m)
    decreases n
  {
    if m < n {
      MonthsAt(detail, n - 1, m);
    }
  }

  /** The detail of each month of a year. */
  function DetailFn(db: Tables, residente: nat, ano: int): int -> MonthDetail
  {
    m => DetailOf(db, residente, ano, m)
  }

  /** The details of the twelve months of a year, January first. */
  function YearDetails(db: Tables, residente: nat, ano: int): (ms: seq<MonthDetail>)
    ensures |ms| == 12
  {
    Months(DetailFn(db, residente, ano), 12)
  }

  /** The m-th entry of the year is the detail of month m. */
  lemma YearDetailAt(db: Tables, residente: nat, ano: int, m: int)
    requires 1 <= m <= 12
    ensures YearDetails(db, residente, ano)[m - 1] == DetailOf(db, residente, ano, m)
  {
    MonthsAt(DetailFn(db, residente, ano), 12, m);
  }

  /** The year's entries are the months 1..12 in order. */
  lemma YearMonths(db: Tables, residente: nat, ano: int)
    ensures forall i :: 0 <= i < 12 ==> YearDetails(db, residente, ano)[i].mes == i + 1
  {
    forall i | 0 <= i < 12 ensures YearDetails(db, residente, ano)[i].mes == i + 1 {
      YearDetailAt(db, residente, ano, i + 1);
    }
  }

  /** The entry of month m computed from its costs and budgets is the m-th of the year's details. */
  lemma MonthStep(db: Tables, residente: nat, ano: int, m: int, costs: map<UtilityType, int>, metas: map<UtilityType, int>)
    requires 1 <= m <= 12
    requires costs == CostsByType(MonthOfYear(YearRecords(db, residente, ano), m), residente, db.contracts, db.tariffs)
    requires metas == MonthMetas(db.budgets, residente, ano, m)
    ensures costs.Keys == {Luz, Agua, Gas} && metas.Keys == {Luz, Agua, Gas}
    ensures DetailOf(db, residente, ano, m) ==
              MonthDetail(m, costs[Luz] + costs[Agua] + costs[Gas], AlertsFor(costs, metas))
  {
  }

  /** relatorio_anual_detalhado: the months that have data, in order. */
  function Listed(ms: seq<MonthDetail>): (listed: seq<MonthDetail>)
    ensures |listed| <= |ms|
    decreases |ms|
  {
    if ms == [] then []
    else Listed(ms[..|ms| - 1]) + if HasData(ms[|ms| - 1].alerts) then [ms[|ms| - 1]] else []
  }

  /** custo_anual_total: the sum of the month totals. */
  function TotalOf(ms: seq<MonthDetail>): int
    decreases |ms|
  {
    if ms == [] then 0 else TotalOf(ms[..|ms| - 1]) + ms[|ms| - 1].total
  }

  /** One more month extends the listing and the total by that month alone. */
  lemma ListedSnoc(ms: seq<MonthDetail>, d: MonthDetail)
    ensures Listed(ms + [d]) == Listed(ms) + if HasData(d.alerts) then [d] else []
    ensures TotalOf(ms + [d]) == TotalOf(ms) + d.total
  {
    assert (ms + [d])[..|ms|] == ms;
  }

  /** Month m extends the listing and the total of months 1..m-1 by its own detail alone. */
  lemma MonthsSnoc(detail: int -> MonthDetail, m: nat, d: MonthDetail)
    requires 1 <= m && detail(m) == d
    ensures Listed(Months(detail, m)) == Listed(Months(detail, m - 1)) + if HasData(d.alerts) then [d] else []
    ensures TotalOf(Months(detail, m)) == TotalOf(Months(detail, m - 1)) + d.total
  {
    ListedSnoc(Months(detail, m - 1), d);
  }

  /** The listed months are months with data. */
  lemma {:induction false} ListedHaveData(ms: seq<MonthDetail>)
    ensures forall d :: d in Listed(ms) ==> d in ms && HasData(d.alerts)
    decreases |ms|
  {
    if ms != [] {
      var prev := ms[..|ms| - 1];
      ListedHaveData(prev);
      assert forall d :: d in prev ==> d in ms;
    }
  }

  /** Every month with data is listed. */
  lemma {:induction false} DataMonthsListed(ms: seq<MonthDetail>)
    ensures forall i :: 0 <= i < |ms| && HasData(ms[i].alerts) ==> ms[i] in Listed(ms)
    decreases |ms|
  {
    if ms != [] {
      var n := |ms| - 1;
      var prev := ms[..n];
      DataMonthsListed(prev);
      forall i | 0 <= i < n && HasData(ms[i].alerts) ensures ms[i] in Listed(ms) {
        assert prev[i] == ms[i];
      }
    }
  }

  /** In a run of consecutive months the listed months increase. */
  lemma {:induction false} ListedIncreasing(ms: seq<MonthDetail>)
    requires forall i :: 0 <= i < |ms| ==> ms[i].mes == i + 1
    ensures forall i, j :: 0 <= i < j < |Listed(ms)| ==> Listed(ms)[i].mes < Listed(ms)[j].mes
    decreases |ms|
  {
    if ms != [] {
      var n := |ms| - 1;
      var prev := ms[..n];
      assert forall i :: 0 <= i < |prev| ==> prev[i].mes == i + 1;
      ListedIncreasing(prev);
      ListedHaveData(prev);
      var lp := Listed(prev);
      if HasData(ms[n].alerts) {
        forall i | 0 <= i < |lp| ensures lp[i].mes < ms[n].mes {
          assert lp[i] in prev;
        }
      }
    }
  }

  /**
   * The inner loop of the annual report over Luz, Agua and Gas: each type's
   * alert, the month's total and whether the month has data.
   */
  method MonthEntry(costs: map<UtilityType, int>, metas: map<UtilityType, int>)
    returns (utilidades: seq<TypeAlert>, monthTotal: int, hasData: bool)
    requires costs.Keys == {Luz, Agua, Gas} && metas.Keys == {Luz, Agua, Gas}
    ensures utilidades == AlertsFor(costs, metas)
    ensures monthTotal == costs[Luz] + costs[Agua] + costs[Gas]
    ensures hasData == HasData(utilidades)
  {
    ghost var expected := AlertsFor(costs, metas);
    utilidades, monthTotal, hasData := [], 0, false;
    for k := 0 to 3
      invariant utilidades == expected[..k]
      invariant monthTotal == AlertTotal(utilidades)
      invariant hasData == HasData(utilidades)
    {
      var tipo := AllTypes[k];
      var custo := costs[tipo];
      var meta := metas[tipo];
      if custo > 0 || meta > 0 {
        hasData := true;
      }
      var alert := ReportAlert(tipo, custo, meta);
      AlertsForPrefix(costs, metas, k);
      AlertTotalSnoc(utilidades, alert);
      HasDataSnoc(utilidades, alert);
      utilidades := utilidades + [alert];
      monthTotal := monthTotal + custo;
    }
    assert utilidades == expected;
    AlertsForTotal(costs, metas);
  }

  /** The first k+1 alerts of a month are its first k followed by the alert of the k-th type. */
  lemma AlertsForPrefix(costs: map<UtilityType, int>, metas: map<UtilityType, int>, k: int)
    requires costs.Keys == {Luz, Agua, Gas} && metas.Keys == {Luz, Agua, Gas}
    requires 0 <= k < 3
    ensures AlertsFor(costs, metas)[..k + 1] ==
              AlertsFor(costs, metas)[..k] + [ReportAlert(AllTypes[k], costs[AllTypes[k]], metas[AllTypes[k]])]
  {
    var alerts := AlertsFor(costs, metas);
    assert alerts[..k + 1] == alerts[..k] + [alerts[k]];
  }

  lemma HasDataSnoc(alerts: seq<TypeAlert>, a: TypeAlert)
    ensures HasData(alerts + [a]) == (HasData(alerts) || a.custo > 0 || a.meta > 0)
  {
    if HasData(alerts) {
      var b :| b in alerts && (b.custo > 0 || b.meta > 0);
      assert b in alerts + [a];
    }
    if a.custo > 0 || a.meta > 0 {
      assert a in alerts + [a];
    }
  }

  /** A month has data exactly when some type has a positive cost or a positive budget. */
  lemma HasDataFor(costs: map<UtilityType, int>, metas: map<UtilityType, int>)
    requires costs.Keys == {Luz, Agua, Gas} && metas.Keys == {Luz, Agua, Gas}
    ensures HasData(AlertsFor(costs, metas)) <==> exists t :: t in costs && (costs[t] > 0 || metas[t] > 0)
  {
  }

  /** One month of the annual branch of gerar_pdf: its costs, budgets and entry. */
  method AnnualMonth(db: Tables, residente: nat, ano: int, yearRecords: seq<ConsumptionRecord>, m: int)
    returns (utilidades: seq<TypeAlert>, monthTotal: int, hasData: bool)
    requires 1 <= m <= 12
    requires yearRecords == YearRecords(db, residente, ano)
    ensures DetailFn(db, residente, ano)(m) == MonthDetail(m, monthTotal, utilidades)
    ensures hasData == HasData(utilidades)
  {
    var costs := CostsByType(MonthOfYear(yearRecords, m), residente, db.contracts, db.tariffs);
    var metas := MonthMetas(db.budgets, residente, ano, m);
    MonthStep(db, residente, ano, m, costs, metas);
    utilidades, monthTotal, hasData := MonthEntry(costs, metas);
  }

  /** One pass of the outer loop: month m is listed if it has data, and its total is added. */
  method AnnualStep(db: Tables, residente: nat, ano: int, yearRecords: seq<ConsumptionRecord>, m: int,
                    detail: seq<MonthDetail>, total: int)
    returns (detail': seq<MonthDetail>, total': int)
    requires 1 <= m <= 12
    requires yearRecords == YearRecords(db, residente, ano)
    requires detail == Listed(Months(DetailFn(db, residente, ano), m - 1))
    requires total == TotalOf(Months(DetailFn(db, residente, ano), m - 1))
    ensures detail' == Listed(Months(DetailFn(db, residente, ano), m))
    ensures total' == TotalOf(Months(DetailFn(db, residente, ano), m))
  {
    var utilidades, monthTotal, hasData := AnnualMonth(db, residente, ano, yearRecords, m);
    MonthsSnoc(DetailFn(db, residente, ano), m, MonthDetail(m, monthTotal, utilidades));
    detail' := detail;
    if hasData {
      detail' := detail' + [MonthDetail(m, monthTotal, utilidades)];
    }
    total' := total + monthTotal;
  }

  /**
   * The annual branch of gerar_pdf: for each month 1..12 the month's entry;
   * a month is listed only when it has data; custo_anual_total adds up every
   * per-type cost of every month.
   */
  method AnnualReport(db: Tables, residente: nat, ano: int) returns (detail: seq<MonthDetail>, total: int)
    ensures detail == Listed(YearDetails(db, residente, ano))
    ensures total == TotalOf(YearDetails(db, residente, ano))
  {
    var yearRecords := YearRecords(db, residente, ano);
    detail, total := [], 0;
    for m := 1 to 13
      invariant detail == Listed(Months(DetailFn(db, residente, ano), m - 1))
      invariant total == TotalOf(Months(DetailFn(db, residente, ano), m - 1))
    {
      detail, total := AnnualStep(db, residente, ano, yearRecords, m, detail, total);
    }
  }

  lemma MonthsInOrder(detail: int -> MonthDetail, n: nat)
    requires forall m :: 1 <= m <= n ==> detail(m).mes == m
    ensures forall i :: 0 <= i < n ==> Months(detail, n)[i] == detail(i + 1) && Months(detail, n)[i].mes == i + 1
  {
    forall i | 0 <= i < n ensures Months(detail, n)[i] == detail(i + 1) {
      MonthsAt(detail, n, i + 1);
    }
  }

  /** The listing of months 1..n keeps exactly the months with data, in increasing order. */
  lemma MonthsListing(detail: int -> MonthDetail, n: nat)
    requires forall m :: 1 <= m <= n ==> detail(m).mes == m
    ensures forall d :: d in Listed(Months(detail, n)) ==> 1 <= d.mes <= n && HasData(d.alerts) && d == detail(d.mes)
    ensures forall m :: 1 <= m <= n && HasData(detail(m).alerts) ==> detail(m) in Listed(Months(detail, n))
    ensures forall i, j :: 0 <= i < j < |Listed(Months(detail, n))| ==>
              Listed(Months(detail, n))[i].mes < Listed(Months(detail, n))[j].mes
  {
    var ms := Months(detail, n);
    MonthsInOrder(detail, n);
    ListedHaveData(ms);
    DataMonthsListed(ms);
    ListedIncreasing(ms);
    forall d | d in Listed(ms) ensures 1 <= d.mes <= n && d == detail(d.mes) {
      var i :| 0 <= i < n && ms[i] == d;
    }
  }

  /**
   * What the annual report lists: only months with data, every month with
   * data, in increasing order, each with that month's alerts and total.
   */
  lemma AnnualReportContents(db: Tables, residente: nat, ano: int)
    ensures forall d :: d in Listed(YearDetails(db, residente, ano)) ==>
              1 <= d.mes <= 12 && HasData(d.alerts) && d == DetailOf(db, residente, ano, d.mes)
    ensures forall m :: 1 <= m <= 12 && HasData(MonthAlerts(db, residente, ano, m)) ==>
              DetailOf(db, residente, ano, m) in Listed(YearDetails(db, residente, ano))
    ensures forall i, j :: 0 <= i < j < |Listed(YearDetails(db, residente, ano))| ==>
              Listed(YearDetails(db, residente, ano))[i].mes < Listed(YearDetails(db, residente, ano))[j].mes
  {
    MonthsListing(DetailFn(db, residente, ano), 12);
    forall m | 1 <= m <= 12 && HasData(MonthAlerts(db, residente, ano, m))
      ensures DetailOf(db, residente, ano, m) in Listed(YearDetails(db, residente, ano))
    {
      assert DetailFn(db, residente, ano)(m) == DetailOf(db, residente, ano, m);
    }
  }

  /** The sum of a sequence of amounts. */
  function AmountSum(xs: seq<int>): int
    decreases |xs|
  {
    if xs == [] then 0 else AmountSum(xs[..|xs| - 1]) + xs[|xs| - 1]
  }

  /** The month totals of a list of month details, in the same order. */
  function Totals(ms: seq<MonthDetail>): (ts: seq<int>)
    ensures |ts| == |ms|
    decreases |ms|
  {
    if ms == [] then [] else Totals(ms[..|ms| - 1]) + [ms[|ms| - 1].total]
  }

  lemma TotalsSnoc(ms: seq<MonthDetail>, d: MonthDetail)
    ensures Totals(ms + [d]) == Totals(ms) + [d.total]
  {
    assert (ms + [d])[..|ms|] == ms;
  }

  /** Summing the month totals gives the annual total. */
  lemma {:induction false} TotalsAddUp(ms: seq<MonthDetail>)
    ensures AmountSum(Totals(ms)) == TotalOf(ms)
    decreases |ms|
  {
    if ms != [] {
      var n := |ms| - 1;
      TotalsAddUp(ms[..n]);
      assert Totals(ms)[..n] == Totals(ms[..n]);
    }
  }

  /** One month of the trend loop: the sum of the month's three costs. */
  method TrendMonth(db: Tables, residente: nat, ano: int, yearRecords: seq<ConsumptionRecord>, m: int) returns (monthTotal: int)
    requires yearRecords == YearRecords(db, residente, ano)
    ensures monthTotal == DetailFn(db, residente, ano)(m).total
  {
    var costs := CostsByType(MonthOfYear(yearRecords, m), residente, db.contracts, db.tariffs);
    monthTotal := costs[Luz] + costs[Agua] + costs[Gas];
  }

  /** The trend loop of relatorios: one total per month, January first. */
  method Trend(db: Tables, residente: nat, ano: int) returns (trend: seq<int>)
    ensures trend == Totals(YearDetails(db, residente, ano))
  {
    var yearRecords := YearRecords(db, residente, ano);
    trend := [];
    for m := 1 to 13
      invariant trend == Totals(Months(DetailFn(db, residente, ano), m - 1))
    {
      var monthTotal := TrendMonth(db, residente, ano, yearRecords, m);
      TotalsSnoc(Months(DetailFn(db, residente, ano), m - 1), DetailFn(db, residente, ano)(m));
      trend := trend + [monthTotal];
    }
  }

  /** Each bar of the trend chart is the total of its month. */
  lemma TrendIsMonthTotals(db: Tables, residente: nat, ano: int)
    ensures forall i :: 0 <= i < 12 ==> Totals(YearDetails(db, residente, ano))[i] == MonthTotal(db, residente, ano, i + 1)
  {
    var ms := YearDetails(db, residente, ano);
    forall i | 0 <= i < 12 ensures Totals(ms)[i] == MonthTotal(db, residente, ano, i + 1) {
      TotalsAt(ms, i);
      YearDetailAt(db, residente, ano, i + 1);
    }
  }

  lemma {:induction false} TotalsAt(ms: seq<MonthDetail>, i: int)
    requires 0 <= i < |ms|
    ensures Totals(ms)[i] == ms[i].total
    decreases |ms|
  {
    if i < |ms| - 1 {
      TotalsAt(ms[..|ms| - 1], i);
    }
  }

  /** The bars of the trend chart add up to the annual report's total. */
  lemma TrendAddsUpToAnnualTotal(db: Tables, residente: nat, ano: int)
    ensures AmountSum(Totals(YearDetails(db, residente, ano))) == TotalOf(YearDetails(db, residente, ano))
  {
    TotalsAddUp(YearDetails(db, residente, ano));
  }
}
