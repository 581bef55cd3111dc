/**
 * Switching supplier (associar_fornecedor in Gestao_Consumos/views.py): in
 * one transaction the resident's active contracts for the service's utility
 * type are closed (status 0) and a new active contract is appended. The
 * contract table is a sequence of rows in insertion order.
 */
module Contracts {
  import opened Wrappers
  import opened Models
  import opened Lookup

  /** The .update(status=0) applied to one row: only the resident's active rows of the type change. */
  function Closed(c: Contract, residente: nat, tipo: UtilityType): Contract
  {
    if ActiveFor(c, residente, tipo) then c.(status := Inactive) else c
  }

  /** The table after the .update(status=0) of associar_fornecedor. */
  function CloseAll(rows: seq<Contract>, residente: nat, tipo: UtilityType): (closed: seq<Contract>)
    ensures |closed| == |rows|
    ensures forall i :: 0 <= i < |closed| ==> !ActiveFor(closed[i], residente, tipo) && closed[i].id == rows[i].id
  {
    seq(|rows|, i requires 0 <= i < |rows| => Closed(rows[i], residente, tipo))
  }

  /** The table after associar_fornecedor: the update followed by the new active row with the next id. */
  function Switch(rows: seq<Contract>, residente: nat, service: SupplierService, now: int, id: nat): (switched: seq<Contract>)
    ensures |switched| == |rows| + 1
    ensures switched[|rows|] == NewContract(id, service, residente, now)
  {
    CloseAll(rows, residente, service.tipo) + [NewContract(id, service, residente, now)]
  }

  /** At most one active contract per resident and utility type. */
  predicate OneActivePerType(rows: seq<Contract>)
  {
    forall i, j :: 0 <= i < j < |rows| && rows[i].status == Active && rows[j].status == Active ==>
      rows[i].residente != rows[j].residente || rows[i].service.tipo != rows[j].service.tipo
  }

  /**
   * After the switch the only active contract of the resident for the type
   * is the new row, which is the last one.
   */
  lemma SwitchLeavesOnlyNewActive(rows: seq<Contract>, residente: nat, service: SupplierService, now: int, id: nat)
    ensures |Switch(rows, residente, service, now, id)| == |rows| + 1
    ensures ActiveFor(Switch(rows, residente, service, now, id)[|rows|], residente, service.tipo)
    ensures forall i :: 0 <= i < |rows| ==> !ActiveFor(Switch(rows, residente, service, now, id)[i], residente, service.tipo)
  {
  }

  /** get_active_contract after the switch returns the contract just created. */
  lemma SwitchSelectsNew(rows: seq<Contract>, residente: nat, service: SupplierService, now: int, id: nat)
    ensures ActiveContract(Switch(rows, residente, service, now, id), residente, service.tipo) ==
              Some(NewContract(id, service, residente, now))
  {
    var s := Switch(rows, residente, service, now, id);
    SwitchLeavesOnlyNewActive(rows, residente, service, now, id);
    ActiveContractIsLatest(s, residente, service.tipo);
    assert s[|rows|] in s;
    var c := ActiveContract(s, residente, service.tipo).value;
    var k :| 0 <= k < |s| && s[k] == c;
    assert k == |rows|;
  }

  /**
   * The switch removes no row and keeps every id: rows that are not the
   * resident's active contract of the type are untouched, and those that are
   * only change status, to 0.
   */
  lemma SwitchTouchesOnlyStatus(rows: seq<Contract>, residente: nat, service: SupplierService, now: int, id: nat)
    ensures Switch(rows, residente, service, now, id)[..|rows|] == CloseAll(rows, residente, service.tipo)
    ensures forall i :: 0 <= i < |rows| && !ActiveFor(rows[i], residente, service.tipo) ==>
              Switch(rows, residente, service, now, id)[i] == rows[i]
    ensures forall i :: 0 <= i < |rows| && ActiveFor(rows[i], residente, service.tipo) ==>
              Switch(rows, residente, service, now, id)[i] == rows[i].(status := Inactive)
    ensures forall i :: 0 <= i < |rows| ==> Switch(rows, residente, service, now, id)[i].id == rows[i].id
  {
  }

  /** Closing the contracts of one resident and type leaves the active contracts of every other pair as they were. */
  lemma {:induction false} CloseAllKeepsOtherPairs(rows: seq<Contract>, residente: nat, tipo: UtilityType, r: nat, t: UtilityType)
    requires r != residente || t != tipo
    ensures ActiveContractsOf(CloseAll(rows, residente, tipo), r, t) == ActiveContractsOf(rows, r, t)
    decreases |rows|
  {
    if rows != [] {
      var closed := CloseAll(rows, residente, tipo);
      assert closed[1..] == CloseAll(rows[1..], residente, tipo);
      assert closed[0] == Closed(rows[0], residente, tipo);
      CloseAllKeepsOtherPairs(rows[1..], residente, tipo, r, t);
    }
  }

  /** The switch does not change which contract is active for any other resident or type. */
  lemma SwitchKeepsOtherPairs(rows: seq<Contract>, residente: nat, service: SupplierService, now: int, id: nat, r: nat, t: UtilityType)
    requires r != residente || t != service.tipo
    ensures ActiveContract(Switch(rows, residente, service, now, id), r, t) == ActiveContract(rows, r, t)
  {
    var closed := CloseAll(rows, residente, service.tipo);
    var created := NewContract(id, service, residente, now);
    CloseAllKeepsOtherPairs(rows, residente, service.tipo, r, t);
    FilterAppend(closed, [created], c => ActiveFor(c, r, t));
    assert Filter([created], c => ActiveFor(c, r, t)) == [];
    assert ActiveContractsOf(closed + [created], r, t) == ActiveContractsOf(rows, r, t);
  }

  /** A table with at most one active contract per resident and type keeps that property through a switch. */
  lemma SwitchKeepsOneActivePerType(rows: seq<Contract>, residente: nat, service: SupplierService, now: int, id: nat)
    requires OneActivePerType(rows)
    ensures OneActivePerType(Switch(rows, residente, service, now, id))
  {
  }

  datatype AssociateError = UnknownService

  /** FornecedorTipo.objects.get(pk=...): the supplier service with that id, if any. */
  function FindService(services: seq<SupplierService>, pk: nat): (r: Option<SupplierService>)
    ensures r.Some? ==> r.value in services && r.value.id == pk
    ensures r.None? <==> forall s :: s in services ==> s.id != pk
    decreases |services|
  {
    if services == [] then None
    else if services[0].id == pk then Some(services[0])
    else FindService(services[1..], pk)
  }

  /** The FornecedorResidente table, with the id the next row will get. */
  class ContractBook {
    var rows: seq<Contract>
    var nextId: nat

    constructor(rows0: seq<Contract>, nextId0: nat)
      ensures rows == rows0 && nextId == nextId0
    {
      rows := rows0;
      nextId := nextId0;
    }

    /**
     * associar_fornecedor: look up the chosen supplier service, close the
     * resident's active contracts of its type and append the new one, all or
     * nothing; an unknown service changes nothing.
     */
    method Associate(services: seq<SupplierService>, servicePk: nat, residente: nat, now: int)
      returns (r: Result<Contract, AssociateError>)
      modifies this
      ensures FindService(services, servicePk).None? ==>
                r == Failure(UnknownService) && rows == old(rows) && nextId == old(nextId)
      ensures FindService(services, servicePk).Some? ==>
                r == Success(NewContract(old(nextId), FindService(services, servicePk).value, residente, now))
      ensures FindService(services, servicePk).Some? ==>
                rows == Switch(old(rows), residente, FindService(services, servicePk).value, now, old(nextId))
      ensures FindService(services, servicePk).Some? ==> nextId == old(nextId) + 1
      ensures old(OneActivePerType(rows)) ==> OneActivePerType(rows)
    {
      var found := FindService(services, servicePk);
      if found.None? {
        return Failure(UnknownService);
      }
      var service := found.value;
      ghost var before := rows;
      var i := 0;
      while i < |rows|
        invariant |rows| == |before| && 0 <= i <= |rows|
        invariant nextId == old(nextId)
        invariant forall k :: 0 <= k < i ==> rows[k] == Closed(before[k], residente, service.tipo)
        invariant forall k :: i <= k < |rows| ==> rows[k] == before[k]
      {
        if rows[i].residente == residente && rows[i].service.tipo == service.tipo && rows[i].status == Active {
          rows := rows[i := rows[i].(status := Inactive)];
        }
        i := i + 1;
      }
      assert rows == CloseAll(before, residente, service.tipo);
      if OneActivePerType(before) {
        SwitchKeepsOneActivePerType(before, residente, service, now, nextId);
      }
      var contract := NewContract(nextId, service, residente, now);
      rows := rows + [contract];
      nextId := nextId + 1;
      r := Success(contract);
    }
  }
}
