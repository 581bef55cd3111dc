/**
 * Worked examples of the cost and alert rules on concrete tables: a month
 * of electricity with solar generation under a contract, water without a
 * contract, and the three budget outcomes.
 */
module Scenarios {
  import opened Wrappers
  import opened Models
  import opened Lookup
  import opened Costs
  import opened Alerts
  import opened Contracts

  const Noon: DateTime := DateTime(2025, 3, 1, 12, 0, 0)

  function Meter(id: nat, tipo: UtilityType, cat: Category): Device
  {
    Device(id, "d", Some(tipo), cat, 1, if tipo == Luz then KWh else M3, Noon, Active)
  }

  const Grid: SupplierService := SupplierService(7, 3, Luz, KWh, Active)

  /** A contract for electricity with service 7, whose tariff went from 0.150 to 0.200. */
  const LuzContracts: seq<Contract> := [Contract(1, Grid, 1, 10, Active)]
  const LuzTariffs: seq<Tariff> := [Tariff(1, 7, 150, 1), Tariff(2, 7, 200, 5)]

  /** 100.00 and 120.00 kWh drawn, 30.00 kWh generated. */
  const LuzRecords: seq<ConsumptionRecord> := [
    ConsumptionRecord(1, Meter(1, Luz, Consumidor), 10000, Noon),
    ConsumptionRecord(2, Meter(2, Luz, Consumidor), 12000, Noon),
    ConsumptionRecord(3, Meter(3, Luz, Gerador), 3000, Noon)
  ]

  /** 220.00 kWh drawn by the consumers and 30.00 kWh generated. */
  lemma LuzReadings()
    ensures ConsumerSum(Luz, LuzRecords) == 22000 && CategorySum(Luz, Gerador, LuzRecords) == 3000
  {
    var r0, r1, r2 := LuzRecords[0], LuzRecords[1], LuzRecords[2];
    assert LuzRecords == [r0] + ([r1] + ([r2] + []));
    CategorySumEmpty(Luz, Consumidor);
    CategorySumCons(Luz, Consumidor, r2, []);
    CategorySumCons(Luz, Consumidor, r1, [r2]);
    CategorySumCons(Luz, Consumidor, r0, [r1, r2]);
    CategorySumEmpty(Luz, Gerador);
    CategorySumCons(Luz, Gerador, r2, []);
    CategorySumCons(Luz, Gerador, r1, [r2]);
    CategorySumCons(Luz, Gerador, r0, [r1, r2]);
  }

  /** The only contract is active, and the later of its two tariffs, 0.200, is the price. */
  lemma LuzPrice()
    ensures EffectivePrice(LuzContracts, LuzTariffs, 1, Luz) == 200
  {
    ActiveContractIsLatest(LuzContracts, 1, Luz);
    assert LuzContracts[0] in LuzContracts;
    assert ActiveContract(LuzContracts, 1, Luz) == Some(LuzContracts[0]);
    LatestPriceIsLatest(LuzTariffs, Grid);
    assert LuzTariffs[1] in LuzTariffs;
  }

  /** The active contract's latest tariff, 0.200, applies to the net 190.00 kWh: 38.00. */
  lemma ElectricityWithSolar()
    ensures NetElectricity(LuzRecords) == 19000
    ensures CostsByType(LuzRecords, 1, LuzContracts, LuzTariffs)[Luz] == 3800
  {
    LuzReadings();
    LuzPrice();
  }

  /** More generation than draw bills nothing rather than a credit. */
  lemma SurplusGenerationBillsNothing()
    ensures NetElectricity([LuzRecords[0], ConsumptionRecord(4, Meter(3, Luz, Gerador), 15000, Noon)]) == 0
  {
    var r0, r1 := LuzRecords[0], ConsumptionRecord(4, Meter(3, Luz, Gerador), 15000, Noon);
    assert [r0, r1] == [r0] + ([r1] + []);
    CategorySumEmpty(Luz, Consumidor);
    CategorySumCons(Luz, Consumidor, r1, []);
    CategorySumCons(Luz, Consumidor, r0, [r1]);
    CategorySumEmpty(Luz, Gerador);
    CategorySumCons(Luz, Gerador, r1, []);
    CategorySumCons(Luz, Gerador, r0, [r1]);
  }

  /** 10 m3 of water with no contract at all is billed at 1.0: 10.00. */
  lemma WaterWithoutContract()
    ensures CostsByType([ConsumptionRecord(5, Meter(5, Agua, Consumidor), 1000, Noon)], 1, [], [])[Agua] == 1000
  {
    var r := ConsumptionRecord(5, Meter(5, Agua, Consumidor), 1000, Noon);
    assert [r] == [r] + [];
    CategorySumEmpty(Agua, Consumidor);
    CategorySumCons(Agua, Consumidor, r, []);
    CostWithoutContract([r], 1, [], [], Agua);
  }

  /** A cost of 38.00 against a budget of 30.00 is exceeded by 8.00, on the dashboard and in the report. */
  lemma BudgetExceeded()
    ensures DashboardAlert(3800, 3000) == Excedido
    ensures ReportAlert(Luz, 3800, 3000).overage == Some(800)
  {
  }

  /** A cost equal to the budget is within it; a single cent more is exceeded by 0.01. */
  lemma BudgetBoundary()
    ensures DashboardAlert(5000, 5000) == Dentro && ReportAlert(Gas, 5000, 5000).status == Ok
    ensures ReportAlert(Gas, 5001, 5000).overage == Some(1)
  {
  }

  /** A switch to another electricity service makes it the one get_active_contract finds. */
  lemma SwitchingSupplier()
    ensures ActiveContract(Switch(LuzContracts, 1, SupplierService(8, 4, Luz, KWh, Active), 20, 2), 1, Luz) ==
              Some(Contract(2, SupplierService(8, 4, Luz, KWh, Active), 1, 20, Active))
    ensures Switch(LuzContracts, 1, SupplierService(8, 4, Luz, KWh, Active), 20, 2)[0].status == Inactive
  {
    SwitchSelectsNew(LuzContracts, 1, SupplierService(8, 4, Luz, KWh, Active), 20, 2);
    SwitchTouchesOnlyStatus(LuzContracts, 1, SupplierService(8, 4, Luz, KWh, Active), 20, 2);
  }
}
