/**
 * Consumption aggregation and cost calculation of Gestao_Consumos/views.py:
 * somar_apenas_consumo, the net electricity of calcular_custos_por_tipo, the
 * price resolution (active contract, then latest tariff, else 1.0) and the
 * rounding of consumption x price to two decimals.
 *
 * Consumption is in hundredths, prices in thousandths, so a product is in
 * hundred-thousandths and a cost in hundredths.
 */
module Costs {
  import opened Wrappers
  import opened Models
  import opened Lookup

  /** Sum('valor') over a queryset of records; 0 for an empty one. */
  function Total(rs: seq<ConsumptionRecord>): int
    decreases |rs|
  {
    if rs == [] then 0 else rs[0].valor + Total(rs[1..])
  }

  lemma {:induction false} TotalAppend(a: seq<ConsumptionRecord>, b: seq<ConsumptionRecord>)
    ensures Total(a + b) == Total(a) + Total(b)
    decreases |a|
  {
    if a == [] {
      assert a + b == b;
    } else {
      assert (a + b)[1..] == a[1..] + b;
      TotalAppend(a[1..], b);
    }
  }

  lemma {:induction false} TotalNonNegative(rs: seq<ConsumptionRecord>)
    requires forall r :: r in rs ==> r.valor >= 0
    ensures Total(rs) >= 0
    decreases |rs|
  {
    if rs != [] {
      assert rs[0] in rs;
      assert forall r :: r in rs[1..] ==> r in rs;
      TotalNonNegative(rs[1..]);
    }
  }

  /** A record of a device of the given type and category. */
  predicate IsOf(r: ConsumptionRecord, tipo: UtilityType, cat: Category)
  {
    r.device.tipo == Some(tipo) && r.device.categoria == cat
  }

  /** The sum of the records of devices of one type and one category. */
  function CategorySum(tipo: UtilityType, cat: Category, rs: seq<ConsumptionRecord>): int
  {
    Total(Filter(rs, r => IsOf(r, tipo, cat)))
  }

  /** somar_apenas_consumo: the sum over consumer devices of one type only. */
  function ConsumerSum(tipo: UtilityType, rs: seq<ConsumptionRecord>): int
  {
    CategorySum(tipo, Consumidor, rs)
  }

  lemma CategorySumAppend(tipo: UtilityType, cat: Category, a: seq<ConsumptionRecord>, b: seq<ConsumptionRecord>)
    ensures CategorySum(tipo, cat, a + b) == CategorySum(tipo, cat, a) + CategorySum(tipo, cat, b)
  {
    FilterAppend(a, b, r => IsOf(r, tipo, cat));
    TotalAppend(Filter(a, r => IsOf(r, tipo, cat)), Filter(b, r => IsOf(r, tipo, cat)));
  }

  /** The share of one record in a category sum. */
  function Share(r: ConsumptionRecord, tipo: UtilityType, cat: Category): int
  {
    if IsOf(r, tipo, cat) then r.valor else 0
  }

  /** A category sum splits into the first record's share and the sum of the rest. */
  lemma CategorySumCons(tipo: UtilityType, cat: Category, r: ConsumptionRecord, rs: seq<ConsumptionRecord>)
    ensures CategorySum(tipo, cat, [r] + rs) == Share(r, tipo, cat) + CategorySum(tipo, cat, rs)
  {
    CategorySumAppend(tipo, cat, [r], rs);
    assert [r][1..] == [];
  }

  /** The category sum of no records is 0. */
  lemma CategorySumEmpty(tipo: UtilityType, cat: Category)
    ensures CategorySum(tipo, cat, []) == 0
  {
  }

  /** Records of another type or category add nothing to a category sum. */
  lemma {:induction false} CategorySumOfOthers(tipo: UtilityType, cat: Category, rs: seq<ConsumptionRecord>)
    requires forall r :: r in rs ==> !IsOf(r, tipo, cat)
    ensures CategorySum(tipo, cat, rs) == 0
    decreases |rs|
  {
    if rs != [] {
      assert rs[0] in rs;
      assert forall r :: r in rs[1..] ==> r in rs;
      assert Filter(rs, r => IsOf(r, tipo, cat)) == Filter(rs[1..], r => IsOf(r, tipo, cat));
      CategorySumOfOthers(tipo, cat, rs[1..]);
    }
  }

  /**
   * Generator records never contribute to somar_apenas_consumo, wherever
   * they stand in the queryset, and the sum of no records is 0.
   */
  lemma GeneratorsNeverCount(tipo: UtilityType, a: seq<ConsumptionRecord>, gens: seq<ConsumptionRecord>, b: seq<ConsumptionRecord>)
    requires forall g :: g in gens ==> g.device.categoria == Gerador
    ensures ConsumerSum(tipo, a + gens + b) == ConsumerSum(tipo, a + b)
    ensures ConsumerSum(tipo, []) == 0
  {
    CategorySumAppend(tipo, Consumidor, a + gens, b);
    CategorySumAppend(tipo, Consumidor, a, gens);
    CategorySumAppend(tipo, Consumidor, a, b);
    CategorySumOfOthers(tipo, Consumidor, gens);
  }

  /** Records of other utility types never contribute to somar_apenas_consumo either. */
  lemma OtherTypesNeverCount(tipo: UtilityType, a: seq<ConsumptionRecord>, others: seq<ConsumptionRecord>)
    requires forall r :: r in others ==> r.device.tipo != Some(tipo)
    ensures ConsumerSum(tipo, a + others) == ConsumerSum(tipo, a)
  {
    CategorySumAppend(tipo, Consumidor, a, others);
    CategorySumOfOthers(tipo, Consumidor, others);
  }

  lemma ConsumerSumNonNegative(tipo: UtilityType, rs: seq<ConsumptionRecord>)
    requires forall r :: r in rs ==> r.valor >= 0
    ensures ConsumerSum(tipo, rs) >= 0
  {
    FilterMembers(rs, r => IsOf(r, tipo, Consumidor));
    TotalNonNegative(Filter(rs, r => IsOf(r, tipo, Consumidor)));
  }

  /**
   * The net electricity of calcular_custos_por_tipo: consumer draw minus
   * generator output, floored at zero, so never a credit.
   */
  function NetElectricity(rs: seq<ConsumptionRecord>): (n: int)
    ensures n >= 0
    ensures n >= ConsumerSum(Luz, rs) - CategorySum(Luz, Gerador, rs)
    ensures n == 0 || n == ConsumerSum(Luz, rs) - CategorySum(Luz, Gerador, rs)
  {
    var d := ConsumerSum(Luz, rs) - CategorySum(Luz, Gerador, rs);
    if d > 0 then d else 0
  }

  /** The consumption that is billed for a type: net for electricity, consumers only otherwise. */
  function Consumption(tipo: UtilityType, rs: seq<ConsumptionRecord>): int
  {
    if tipo == Luz then NetElectricity(rs) else ConsumerSum(tipo, rs)
  }

  /**
   * round(x, 2) for an amount x in hundred-thousandths, giving hundredths:
   * the nearest hundredth, with halves rounded away from zero.
   */
  function Round2(x: int): (r: int)
    ensures x >= 0 ==> -1000 < 2 * (1000 * r - x) <= 1000
    ensures x < 0 ==> -1000 <= 2 * (1000 * r - x) < 1000
  {
    if x >= 0 then (x + 500) / 1000 else -((500 - x) / 1000)
  }

  /** An amount that is already a whole number of hundredths is left as it is. */
  lemma Round2Exact(k: int)
    ensures Round2(1000 * k) == k
  {
  }

  /** The cost of a consumption at a price: round(consumption * price, 2). */
  function Cost(consumption: int, price: int): (c: int)
    ensures -1000 <= 2 * (1000 * c - consumption * price) <= 1000
  {
    Round2(consumption * price)
  }

  /** Nothing consumed costs nothing; a consumption and a price that are not negative never give a credit. */
  lemma CostSign(consumption: int, price: int)
    ensures consumption == 0 ==> Cost(consumption, price) == 0
    ensures consumption >= 0 && price >= 0 ==> Cost(consumption, price) >= 0
  {
  }

  /** At the fallback price of 1.0 the cost is the consumption itself. */
  lemma CostAtDefaultPrice(consumption: int)
    ensures Cost(consumption, DefaultPrice) == consumption
  {
    Round2Exact(consumption);
  }

  /**
   * The PRECOS entry of a type: the latest tariff of the active contract's
   * service, or 1.0 when there is no active contract (or no tariff).
   */
  function EffectivePrice(contracts: seq<Contract>, tariffs: seq<Tariff>, residente: nat, tipo: UtilityType): (price: int)
    ensures ActiveContract(contracts, residente, tipo).None? ==> price == DefaultPrice
    ensures price == DefaultPrice || exists t :: t in tariffs && price == t.valor
  {
    match ActiveContract(contracts, residente, tipo)
    case None => DefaultPrice
    case Some(c) => LatestPrice(tariffs, c.service)
  }

  /**
   * Without an active contract the price is 1.0; otherwise it is the latest
   * price of the service of an active contract that no other active contract
   * postdates, so 1.0 or the value of one of that service's tariffs.
   */
  lemma EffectivePriceSource(contracts: seq<Contract>, tariffs: seq<Tariff>, residente: nat, tipo: UtilityType)
    ensures (forall c :: c in contracts ==> !ActiveFor(c, residente, tipo)) ==>
              EffectivePrice(contracts, tariffs, residente, tipo) == DefaultPrice
    ensures EffectivePrice(contracts, tariffs, residente, tipo) == DefaultPrice ||
              exists c, t :: c in contracts && ActiveFor(c, residente, tipo) &&
                t in tariffs && TariffOf(t, c.service) && EffectivePrice(contracts, tariffs, residente, tipo) == t.valor
    ensures (exists c :: c in contracts && ActiveFor(c, residente, tipo)) ==>
              exists c :: c in contracts && ActiveFor(c, residente, tipo) &&
                (forall d :: d in contracts && ActiveFor(d, residente, tipo) ==> d.timestamp <= c.timestamp) &&
                EffectivePrice(contracts, tariffs, residente, tipo) == LatestPrice(tariffs, c.service)
  {
    ActiveContractIsLatest(contracts, residente, tipo);
    match ActiveContract(contracts, residente, tipo)
    case None =>
    case Some(c) => LatestPriceIsLatest(tariffs, c.service);
  }

  /** With tariffs that are not negative the effective price is not negative. */
  lemma EffectivePriceNonNegative(contracts: seq<Contract>, tariffs: seq<Tariff>, residente: nat, tipo: UtilityType)
    requires forall t :: t in tariffs ==> t.valor >= 0
    ensures EffectivePrice(contracts, tariffs, residente, tipo) >= 0
  {
    EffectivePriceSource(contracts, tariffs, residente, tipo);
  }

  /**
   * calcular_custos_por_tipo: exactly the keys Luz, Agua and Gas, each the
   * rounded product of the billed consumption and the effective price.
   */
  function CostsByType(rs: seq<ConsumptionRecord>, residente: nat, contracts: seq<Contract>, tariffs: seq<Tariff>): (m: map<UtilityType, int>)
    ensures m.Keys == {Luz, Agua, Gas}
    ensures forall t :: t in m ==> m[t] == Cost(Consumption(t, rs), EffectivePrice(contracts, tariffs, residente, t))
  {
    map[
      Luz := Cost(NetElectricity(rs), EffectivePrice(contracts, tariffs, residente, Luz)),
      Agua := Cost(ConsumerSum(Agua, rs), EffectivePrice(contracts, tariffs, residente, Agua)),
      Gas := Cost(ConsumerSum(Gas, rs), EffectivePrice(contracts, tariffs, residente, Gas))
    ]
  }

  /** Without an active contract a type is billed at 1.0: its cost is its consumption. */
  lemma CostWithoutContract(rs: seq<ConsumptionRecord>, residente: nat, contracts: seq<Contract>, tariffs: seq<Tariff>, tipo: UtilityType)
    requires forall c :: c in contracts ==> !ActiveFor(c, residente, tipo)
    ensures CostsByType(rs, residente, contracts, tariffs)[tipo] == Consumption(tipo, rs)
  {
    EffectivePriceSource(contracts, tariffs, residente, tipo);
    CostAtDefaultPrice(Consumption(tipo, rs));
  }

  /** A period without records costs nothing, whatever the prices. */
  lemma NoRecordsNoCost(residente: nat, contracts: seq<Contract>, tariffs: seq<Tariff>)
    ensures forall t :: t in CostsByType([], residente, contracts, tariffs) ==>
              CostsByType([], residente, contracts, tariffs)[t] == 0
  {
    assert ConsumerSum(Luz, []) == 0 && CategorySum(Luz, Gerador, []) == 0;
    assert ConsumerSum(Agua, []) == 0 && ConsumerSum(Gas, []) == 0;
    forall t | t in {Luz, Agua, Gas} ensures Cost(Consumption(t, []), EffectivePrice(contracts, tariffs, residente, t)) == 0 {
      CostSign(Consumption(t, []), EffectivePrice(contracts, tariffs, residente, t));
    }
  }

  /** The electricity cost is never negative when the tariffs are not, whatever the readings. */
  lemma ElectricityCostNonNegative(rs: seq<ConsumptionRecord>, residente: nat, contracts: seq<Contract>, tariffs: seq<Tariff>)
    requires forall t :: t in tariffs ==> t.valor >= 0
    ensures CostsByType(rs, residente, contracts, tariffs)[Luz] >= 0
  {
    EffectivePriceNonNegative(contracts, tariffs, residente, Luz);
    CostSign(NetElectricity(rs), EffectivePrice(contracts, tariffs, residente, Luz));
  }

  /** With non-negative readings and tariffs every cost is non-negative. */
  lemma CostsNonNegative(rs: seq<ConsumptionRecord>, residente: nat, contracts: seq<Contract>, tariffs: seq<Tariff>)
    requires forall r :: r in rs ==> r.valor >= 0
    requires forall t :: t in tariffs ==> t.valor >= 0
    ensures forall t :: t in CostsByType(rs, residente, contracts, tariffs) ==>
              CostsByType(rs, residente, contracts, tariffs)[t] >= 0
  {
    ConsumerSumNonNegative(Agua, rs);
    ConsumerSumNonNegative(Gas, rs);
    forall t | t in {Luz, Agua, Gas}
      ensures Cost(Consumption(t, rs), EffectivePrice(contracts, tariffs, residente, t)) >= 0
    {
      EffectivePriceNonNegative(contracts, tariffs, residente, t);
      CostSign(Consumption(t, rs), EffectivePrice(contracts, tariffs, residente, t));
    }
  }

  /** Generator records of water or gas devices never change those costs. */
  lemma WaterGasIgnoreGenerators(a: seq<ConsumptionRecord>, gens: seq<ConsumptionRecord>, residente: nat, contracts: seq<Contract>, tariffs: seq<Tariff>, tipo: UtilityType)
    requires tipo != Luz
    requires forall g :: g in gens ==> g.device.categoria == Gerador
    ensures CostsByType(a + gens, residente, contracts, tariffs)[tipo] == CostsByType(a, residente, contracts, tariffs)[tipo]
  {
    GeneratorsNeverCount(tipo, a, gens, []);
    assert a + gens + [] == a + gens;
    assert a + [] == a;
  }
}
