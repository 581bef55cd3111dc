/**
 * The budget alert rules of Gestao_Consumos/views.py: the three-way status
 * of the dashboard and the per-type status of the PDF report, with the
 * overage it prints when a budget is exceeded. Amounts are in hundredths,
 * so round(x, 2) of a difference of such amounts is the difference itself.
 */
module Alerts {
  import opened Wrappers
  import opened Models

  /** status_alerta of the dashboard. */
  datatype DashboardStatus = SemMeta | Excedido | Dentro

  /**
   * The dashboard classification: no budget when the month's budget total is
   * not positive; otherwise exceeded exactly when the total cost is above it.
   */
  function DashboardAlert(total: int, meta: int): (s: DashboardStatus)
    ensures s == SemMeta <==> meta <= 0
    ensures s == Excedido <==> total > meta && meta > 0
    ensures s == Dentro <==> meta > 0 && total <= meta
  {
    if total > meta && meta > 0 then Excedido
    else if meta > 0 then Dentro
    else SemMeta
  }

  /** The status of one utility in the report. */
  datatype ReportStatus = Ok | Exceeded

  /** One entry of alerta_status / utilidades: the "mensagem" is the overage, if any. */
  datatype TypeAlert = TypeAlert(tipo: UtilityType, custo: int, meta: int, status: ReportStatus, overage: Option<int>)

  /**
   * The per-type report status: a cost above a positive budget is exceeded,
   * with the overage cost - meta; a cost equal to the budget, or any cost
   * without a positive budget, is ok and carries no overage.
   */
  function ReportAlert(tipo: UtilityType, custo: int, meta: int): (a: TypeAlert)
    ensures a.tipo == tipo && a.custo == custo && a.meta == meta
    ensures a.status == Exceeded <==> custo > meta && meta > 0
    ensures a.overage.Some? <==> a.status == Exceeded
    ensures a.overage.Some? ==> a.overage.value == custo - meta && a.overage.value > 0
  {
    var excedido := custo > meta && meta > 0;
    TypeAlert(tipo, custo, meta, if excedido then Exceeded else Ok,
              if excedido then Some(custo - meta) else None)
  }

  /** The dashboard and the report agree: both call a cost above a positive budget exceeded. */
  lemma DashboardAgreesWithReport(tipo: UtilityType, custo: int, meta: int)
    ensures (DashboardAlert(custo, meta) == Excedido) == (ReportAlert(tipo, custo, meta).status == Exceeded)
    ensures (DashboardAlert(custo, meta) != Excedido) == (ReportAlert(tipo, custo, meta).overage.None?)
  {
  }
}
