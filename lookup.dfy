/**
 * The two lookups of Gestao_Consumos/views.py that pick the most recent row:
 * get_latest_price (tariff history of a supplier service, with a 1.0 fallback)
 * and get_active_contract (a resident's active contract for one utility type).
 * Database queries are filters over the table as a sequence.
 */
module Lookup {
  import opened Wrappers
  import opened Models

  /** The rows of s that satisfy keep, in table order: a queryset .filter(...). */
  function Filter<T(!new)>(s: seq<T>, keep: T -> bool): (r: seq<T>)
    ensures |r| <= |s|
    decreases |s|
  {
    if s == [] then [] else (if keep(s[0]) then [s[0]] else []) + Filter(s[1..], keep)
  }

  /** The filtered rows are exactly the rows of s that satisfy keep. */
  lemma {:induction false} FilterMembers<T(!new)>(s: seq<T>, keep: T -> bool)
    ensures forall x :: x in Filter(s, keep) <==> x in s && keep(x)
    decreases |s|
  {
    if s != [] {
      FilterMembers(s[1..], keep);
      assert forall x :: x in s <==> x == s[0] || x in s[1..];
    }
  }

  lemma {:induction false} FilterAppend<T(!new)>(a: seq<T>, b: seq<T>, keep: T -> bool)
    ensures Filter(a + b, keep) == Filter(a, keep) + Filter(b, keep)
    decreases |a|
  {
    if a == [] {
      assert a + b == b;
    } else {
      var head := if keep(a[0]) then [a[0]] else [];
      assert (a + b)[0] == a[0] && (a + b)[1..] == a[1..] + b;
      assert Filter(a + b, keep) == head + Filter(a[1..] + b, keep);
      assert Filter(a, keep) == head + Filter(a[1..], keep);
      FilterAppend(a[1..], b, keep);
      assert head + (Filter(a[1..], keep) + Filter(b, keep)) == (head + Filter(a[1..], keep)) + Filter(b, keep);
    }
  }

  /** Filtering twice keeps the rows that pass both tests. */
  lemma {:induction false} FilterFilter<T(!new)>(s: seq<T>, p: T -> bool, q: T -> bool, pq: T -> bool)
    requires forall x :: pq(x) == (p(x) && q(x))
    ensures Filter(Filter(s, p), q) == Filter(s, pq)
    decreases |s|
  {
    if s != [] {
      FilterFilter(s[1..], p, q, pq);
      if p(s[0]) {
        assert Filter(s, p) == [s[0]] + Filter(s[1..], p);
        assert Filter(s, p)[1..] == Filter(s[1..], p);
      } else {
        assert Filter(s, p) == Filter(s[1..], p);
      }
    }
  }

  /**
   * .order_by('-timestamp').first(): a row with the greatest key, or None for
   * an empty table. Among rows with equal keys the first in table order wins.
   */
  function Latest<T>(s: seq<T>, key: T -> int): (r: Option<T>)
    ensures r.None? <==> s == []
    decreases |s|
  {
    if s == [] then None
    else
      var rest := Latest(s[1..], key);
      if rest.None? || key(rest.value) <= key(s[0]) then Some(s[0]) else rest
  }

  /** Latest picks a row of s whose key is the greatest, and the first such row in table order. */
  lemma {:induction false} LatestIsFirstGreatest<T(!new)>(s: seq<T>, key: T -> int)
    ensures Latest(s, key).Some? ==> Latest(s, key).value in s
    ensures Latest(s, key).Some? ==> forall x :: x in s ==> key(x) <= key(Latest(s, key).value)
    ensures Latest(s, key).Some? ==> exists i :: 0 <= i < |s| && s[i] == Latest(s, key).value &&
                                       forall j :: 0 <= j < i ==> key(s[j]) < key(Latest(s, key).value)
    decreases |s|
  {
    if s != [] {
      LatestIsFirstGreatest(s[1..], key);
      assert forall x :: x in s <==> x == s[0] || x in s[1..];
      var rest := Latest(s[1..], key);
      if rest.Some? && key(s[0]) < key(rest.value) {
        LatestShift(s, key, rest.value);
      } else {
        assert s[0] == Latest(s, key).value;
      }
    }
  }

  /** A first-greatest row of s[1..] that beats s[0] is a first-greatest row of s. */
  lemma LatestShift<T(!new)>(s: seq<T>, key: T -> int, v: T)
    requires s != [] && key(s[0]) < key(v)
    requires exists i :: 0 <= i < |s[1..]| && s[1..][i] == v && forall j :: 0 <= j < i ==> key(s[1..][j]) < key(v)
    ensures exists i :: 0 <= i < |s| && s[i] == v && forall j :: 0 <= j < i ==> key(s[j]) < key(v)
  {
  }

  /** The price used when a service has no tariff: 1.0, in thousandths. */
  const DefaultPrice: int := 1000

  predicate TariffOf(t: Tariff, service: SupplierService)
  {
    t.service == service.id
  }

  /** The tariff history of one service. */
  function TariffsOf(tariffs: seq<Tariff>, service: SupplierService): seq<Tariff>
  {
    Filter(tariffs, t => TariffOf(t, service))
  }

  /**
   * get_latest_price: the value of the service's latest tariff, or 1.0 when
   * the service has no tariff at all.
   */
  function LatestPrice(tariffs: seq<Tariff>, service: SupplierService): (price: int)
    ensures TariffsOf(tariffs, service) == [] ==> price == DefaultPrice
    ensures price == DefaultPrice || exists t :: t in tariffs && TariffOf(t, service) && price == t.valor
  {
    FilterMembers(tariffs, t => TariffOf(t, service));
    LatestIsFirstGreatest(TariffsOf(tariffs, service), (t: Tariff) => t.timestamp);
    match Latest(TariffsOf(tariffs, service), (t: Tariff) => t.timestamp)
    case None => DefaultPrice
    case Some(t) => t.valor
  }

  /**
   * The price is 1.0 when the service has no tariff, and otherwise the value
   * of one of its tariffs with the greatest timestamp.
   */
  lemma LatestPriceIsLatest(tariffs: seq<Tariff>, service: SupplierService)
    ensures (forall t :: t in tariffs ==> !TariffOf(t, service)) ==> LatestPrice(tariffs, service) == DefaultPrice
    ensures (exists t :: t in tariffs && TariffOf(t, service)) ==>
              exists t :: t in tariffs && TariffOf(t, service) && LatestPrice(tariffs, service) == t.valor &&
                forall u :: u in tariffs && TariffOf(u, service) ==> u.timestamp <= t.timestamp
  {
    FilterMembers(tariffs, t => TariffOf(t, service));
    LatestIsFirstGreatest(TariffsOf(tariffs, service), (t: Tariff) => t.timestamp);
  }

  /** A contract that get_active_contract may return: the resident's, of the type, with status 1. */
  predicate ActiveFor(c: Contract, residente: nat, tipo: UtilityType)
  {
    c.residente == residente && c.service.tipo == tipo && c.status == Active
  }

  function ActiveContractsOf(contracts: seq<Contract>, residente: nat, tipo: UtilityType): seq<Contract>
  {
    Filter(contracts, c => ActiveFor(c, residente, tipo))
  }

  /**
   * get_active_contract: the latest active contract of the resident for the
   * utility type, or None when there is none.
   */
  function ActiveContract(contracts: seq<Contract>, residente: nat, tipo: UtilityType): (r: Option<Contract>)
    ensures r.None? <==> ActiveContractsOf(contracts, residente, tipo) == []
    ensures r.Some? ==> r.value in contracts && ActiveFor(r.value, residente, tipo)
  {
    FilterMembers(contracts, c => ActiveFor(c, residente, tipo));
    LatestIsFirstGreatest(ActiveContractsOf(contracts, residente, tipo), (c: Contract) => c.timestamp);
    Latest(ActiveContractsOf(contracts, residente, tipo), (c: Contract) => c.timestamp)
  }

  /**
   * There is no active contract exactly when the resident has no contract of
   * the type with status 1; otherwise it is one of those, with the latest timestamp.
   */
  lemma ActiveContractIsLatest(contracts: seq<Contract>, residente: nat, tipo: UtilityType)
    ensures ActiveContract(contracts, residente, tipo).None? <==> forall c :: c in contracts ==> !ActiveFor(c, residente, tipo)
    ensures ActiveContract(contracts, residente, tipo).Some? ==>
              ActiveContract(contracts, residente, tipo).value in contracts &&
              ActiveFor(ActiveContract(contracts, residente, tipo).value, residente, tipo)
    ensures ActiveContract(contracts, residente, tipo).Some? ==>
              forall c :: c in contracts && ActiveFor(c, residente, tipo) ==>
                c.timestamp <= ActiveContract(contracts, residente, tipo).value.timestamp
  {
    FilterMembers(contracts, c => ActiveFor(c, residente, tipo));
    LatestIsFirstGreatest(ActiveContractsOf(contracts, residente, tipo), (c: Contract) => c.timestamp);
  }
}
