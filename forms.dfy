/**
 * The forms of Gestao_Consumos/forms.py that carry rules: the month and year
 * choices, the active-only choice lists, ConsumoManualForm (one record per
 * device and month, stamped on day 1 at noon) and CriarMetaForm together with
 * the duplicate check relatorios runs before saving it (one budget per
 * resident, type and month).
 *
 * A choice field's submitted value is given as the integer or row it names;
 * a value the field refuses leaves it out of cleaned_data, written None.
 */
module Forms {
  import opened Wrappers
  import opened Models
  import opened Lookup
  import opened Budgets

  /** MESES_CHOICES: January is 1. */
  const MonthChoices: seq<int> := [1, 2, 3, 4, 5, 6, 7, 8, 9, 10, 11, 12]

  /** ANOS_CHOICES: range(2025, 2031). */
  const YearChoices: seq<int> := [2025, 2026, 2027, 2028, 2029, 2030]

  /** The month choices are exactly 1..12 and the year choices exactly 2025..2030. */
  lemma ChoiceRanges()
    ensures forall m :: m in MonthChoices <==> 1 <= m <= 12
    ensures forall y :: y in YearChoices <==> 2025 <= y <= 2030
  {
  }

  /**
   * The device queryset of ConsumoManualForm: the resident's devices with
   * status 1, or every device when the form is built without a resident.
   */
  function SelectableDevices(devices: seq<Device>, residente: Option<nat>): (offered: seq<Device>)
    ensures residente.None? ==> offered == devices
    ensures |offered| <= |devices|
  {
    match residente
    case None => devices
    case Some(id) => Filter(devices, (d: Device) => d.residente == id && d.status == Active)
  }

  lemma SelectableDevicesAreOwnActive(devices: seq<Device>, residente: nat)
    ensures forall d :: d in SelectableDevices(devices, Some(residente)) <==>
              d in devices && d.residente == residente && d.status == Active
  {
    FilterMembers(devices, (d: Device) => d.residente == residente && d.status == Active);
  }

  /** The category queryset of DispositivoForm: categories with status 1. */
  function SelectableCategories(categories: seq<CategoryRow>): seq<CategoryRow>
  {
    Filter(categories, (c: CategoryRow) => c.status == Active)
  }

  lemma SelectableCategoriesAreActive(categories: seq<CategoryRow>)
    ensures forall c :: c in SelectableCategories(categories) <==> c in categories && c.status == Active
  {
    FilterMembers(categories, (c: CategoryRow) => c.status == Active);
  }

  /** A ModelChoiceField lookup: the row of the queryset with the submitted id, if any. */
  function FindDevice(devices: seq<Device>, pk: nat): (r: Option<Device>)
    ensures r.Some? ==> r.value in devices && r.value.id == pk
    ensures r.None? <==> forall d :: d in devices ==> d.id != pk
    decreases |devices|
  {
    if devices == [] then None
    else if devices[0].id == pk then Some(devices[0])
    else FindDevice(devices[1..], pk)
  }

  /** The timestamp both save paths give a submitted year and month: day 1 at 12:00:00. */
  function FirstOfMonthNoon(ano: int, mes: int): DateTime
  {
    DateTime(ano, mes, 1, 12, 0, 0)
  }

  /** A record of the same device in the given year and month that is not the instance being edited. */
  predicate Clashes(r: ConsumptionRecord, device: Device, ano: int, mes: int, instancePk: Option<nat>)
  {
    r.device.id == device.id && r.timestamp.year == ano && r.timestamp.month == mes &&
    (instancePk.None? || r.id != instancePk.value)
  }

  datatype FormError = InvalidDevice | InvalidValue | InvalidMonth | InvalidYear | DuplicateRecord

  /**
   * What clean() ends in: a ValidationError, or the TypeError that
   * int(None) raises when the month or the year was refused.
   */
  datatype CleanError = Duplicate | TypeError

  /**
   * ConsumoManualForm.clean over the existing records: it fails when the
   * month or year is missing, and otherwise when a device is chosen and
   * another record of it already falls in that month.
   */
  function CleanConsumo(records: seq<ConsumptionRecord>, device: Option<Device>, mes: Option<int>, ano: Option<int>,
                        instancePk: Option<nat>): (r: Outcome<CleanError>)
    ensures r == Fail(TypeError) <==> mes.None? || ano.None?
    ensures r == Fail(Duplicate) <==>
              mes.Some? && ano.Some? && device.Some? &&
              exists x :: x in records && Clashes(x, device.value, ano.value, mes.value, instancePk)
  {
    if mes.None? || ano.None? then Fail(TypeError)
    else if device.Some? && exists x :: x in records && Clashes(x, device.value, ano.value, mes.value, instancePk)
    then Fail(Duplicate)
    else Pass
  }

  /** At most one record per device and calendar month. */
  predicate OnePerDeviceMonth(rows: seq<ConsumptionRecord>)
  {
    forall i, j :: 0 <= i < j < |rows| ==>
      rows[i].device.id != rows[j].device.id ||
      rows[i].timestamp.year != rows[j].timestamp.year || rows[i].timestamp.month != rows[j].timestamp.month
  }

  /**
   * Editing a record and keeping it in its own month is accepted: the
   * record's own primary key is left out of the duplicate check.
   */
  lemma EditInOwnMonthAccepted(rows: seq<ConsumptionRecord>, k: int)
    requires OnePerDeviceMonth(rows) && 0 <= k < |rows|
    ensures CleanConsumo(rows, Some(rows[k].device), Some(rows[k].timestamp.month), Some(rows[k].timestamp.year),
                         Some(rows[k].id)) == Pass
  {
  }

  datatype SubmitError = Invalid(errors: seq<FormError>) | ServerError

  /** The field errors of a ConsumoManualForm submission, in field order. */
  function ConsumoFieldErrors(device: Option<Device>, valor: int, mes: Option<int>, ano: Option<int>): seq<FormError>
  {
    (if device.None? then [InvalidDevice] else []) +
    (if !FitsConsumption(valor) then [InvalidValue] else []) +
    (if mes.None? then [InvalidMonth] else []) +
    (if ano.None? then [InvalidYear] else [])
  }

  /** A submitted value of a choice field: kept when it is one of the choices. */
  function Chosen(v: int, choices: seq<int>): (r: Option<int>)
    ensures r.Some? <==> v in choices
    ensures r.Some? ==> r.value == v
  {
    if v in choices then Some(v) else None
  }

  /**
   * form.is_valid() of registar_consumo followed by the save: the field
   * checks, then clean(); a valid submission becomes a record of the chosen
   * device stamped on day 1 of the chosen month, with the next id.
   */
  function SubmitConsumo(rows: seq<ConsumptionRecord>, nextId: nat, devices: seq<Device>, residente: Option<nat>,
                         devicePk: nat, valor: int, mes: int, ano: int): (r: Result<ConsumptionRecord, SubmitError>)
    ensures r == Failure(ServerError) <==> mes !in MonthChoices || ano !in YearChoices
    ensures r.Success? ==>
              r.value.id == nextId && r.value.valor == valor && r.value.device in SelectableDevices(devices, residente) &&
              r.value.device.id == devicePk && r.value.timestamp == FirstOfMonthNoon(ano, mes)
    ensures r.Success? <==>
              mes in MonthChoices && ano in YearChoices && FitsConsumption(valor) &&
              FindDevice(SelectableDevices(devices, residente), devicePk).Some? &&
              forall x :: x in rows ==> !Clashes(x, FindDevice(SelectableDevices(devices, residente), devicePk).value, ano, mes, None)
  {
    Decide(rows, nextId, FindDevice(SelectableDevices(devices, residente), devicePk), valor,
           Chosen(mes, MonthChoices), Chosen(ano, YearChoices))
  }

  /** is_valid() and the save once the choice fields are cleaned. */
  function Decide(rows: seq<ConsumptionRecord>, nextId: nat, device: Option<Device>, valor: int, mes: Option<int>,
                  ano: Option<int>): (r: Result<ConsumptionRecord, SubmitError>)
    ensures r == Failure(ServerError) <==> mes.None? || ano.None?
    ensures r.Success? ==>
              device.Some? && mes.Some? && ano.Some? && r.value.device == device.value && r.value.id == nextId &&
              r.value.timestamp == FirstOfMonthNoon(ano.value, mes.value)
  {
    match CleanConsumo(rows, device, mes, ano, None)
    case Fail(TypeError) => Failure(ServerError)
    case Fail(Duplicate) => Failure(Invalid(ConsumoFieldErrors(device, valor, mes, ano) + [DuplicateRecord]))
    case Pass =>
      if ConsumoFieldErrors(device, valor, mes, ano) != [] then Failure(Invalid(ConsumoFieldErrors(device, valor, mes, ano)))
      else Success(ConsumptionRecord(nextId, device.value, valor, FirstOfMonthNoon(ano.value, mes.value)))
  }

  /** A record the form accepts never shares its device and month with an existing record. */
  lemma SubmitKeepsOnePerDeviceMonth(rows: seq<ConsumptionRecord>, nextId: nat, devices: seq<Device>, residente: Option<nat>,
                                      devicePk: nat, valor: int, mes: int, ano: int)
    requires OnePerDeviceMonth(rows)
    requires SubmitConsumo(rows, nextId, devices, residente, devicePk, valor, mes, ano).Success?
    ensures OnePerDeviceMonth(rows + [SubmitConsumo(rows, nextId, devices, residente, devicePk, valor, mes, ano).value])
  {
    var rec := SubmitConsumo(rows, nextId, devices, residente, devicePk, valor, mes, ano).value;
    var s := rows + [rec];
    forall i, j | 0 <= i < j < |s|
      ensures s[i].device.id != s[j].device.id ||
              s[i].timestamp.year != s[j].timestamp.year || s[i].timestamp.month != s[j].timestamp.month
    {
      if j == |rows| {
        assert s[i] in rows;
      } else {
        assert s[i] == rows[i] && s[j] == rows[j];
      }
    }
  }

  /** Once a record is saved, submitting the same device and month again is refused as a duplicate. */
  lemma ResubmitRejected(rows: seq<ConsumptionRecord>, nextId: nat, devices: seq<Device>, residente: Option<nat>,
                         devicePk: nat, valor: int, mes: int, ano: int, nextId2: nat, valor2: int)
    requires SubmitConsumo(rows, nextId, devices, residente, devicePk, valor, mes, ano).Success?
    ensures SubmitConsumo(rows + [SubmitConsumo(rows, nextId, devices, residente, devicePk, valor, mes, ano).value],
                          nextId2, devices, residente, devicePk, valor2, mes, ano).Failure?
  {
    var rec := SubmitConsumo(rows, nextId, devices, residente, devicePk, valor, mes, ano).value;
    var device := FindDevice(SelectableDevices(devices, residente), devicePk);
    assert rec in rows + [rec];
    assert Clashes(rec, device.value, ano, mes, None);
  }

  /** The RegistoConsumo table, with the id the next record will get. */
  class ConsumptionLog {
    var rows: seq<ConsumptionRecord>
    var nextId: nat

    ghost predicate Valid()
      reads this
    {
      OnePerDeviceMonth(rows) && forall i :: 0 <= i < |rows| ==> rows[i].id < nextId
    }

    constructor()
      ensures rows == [] && nextId == 1 && Valid()
    {
      rows := [];
      nextId := 1;
    }

    /**
     * registar_consumo on a POST: validate the submission, then build the
     * record, set its timestamp to day 1 at noon of the chosen month and
     * save it.
     */
    method Register(devices: seq<Device>, residente: Option<nat>, devicePk: nat, valor: int, mes: int, ano: int)
      returns (r: Result<ConsumptionRecord, SubmitError>)
      modifies this
      ensures old(Valid()) ==> Valid()
      ensures r == SubmitConsumo(old(rows), old(nextId), devices, residente, devicePk, valor, mes, ano)
      ensures r.Success? ==> rows == old(rows) + [r.value] && nextId == old(nextId) + 1
      ensures r.Failure? ==> rows == old(rows) && nextId == old(nextId)
    {
      var outcome := SubmitConsumo(rows, nextId, devices, residente, devicePk, valor, mes, ano);
      if outcome.Failure? {
        return outcome;
      }
      if Valid() {
        SubmitKeepsOnePerDeviceMonth(rows, nextId, devices, residente, devicePk, valor, mes, ano);
      }
      var registo := outcome.value;
      registo := registo.(timestamp := FirstOfMonthNoon(ano, mes));
      rows := rows + [registo];
      nextId := nextId + 1;
      r := Success(registo);
    }
  }

  datatype BudgetError = InvalidBudget | AlreadyExists

  /** A budget of the resident and type already set for that year and month (the exists() of relatorios). */
  predicate BudgetTaken(bs: seq<Budget>, residente: nat, tipo: UtilityType, ano: int, mes: int)
    ensures !BudgetTaken(bs, residente, tipo, ano, mes) ==> BudgetMeta(bs, residente, ano, mes, tipo) == 0
  {
    BudgetMetaIsLast(bs, residente, ano, mes, tipo);
    exists b :: b in bs && b.residente == residente && b.tipo == tipo && b.timestamp.year == ano && b.timestamp.month == mes
  }

  /** The Orcamento_limite table, with the id the next budget will get. */
  class BudgetBook {
    var rows: seq<Budget>
    var nextId: nat

    ghost predicate Valid()
      reads this
    {
      OnePerMonth(rows) && UniqueTogether(rows)
    }

    constructor()
      ensures rows == [] && nextId == 1 && Valid()
    {
      rows := [];
      nextId := 1;
    }

    /**
     * The POST branch of relatorios: CriarMetaForm must be valid, a budget
     * for the same resident, type and month must not exist, and then
     * CriarMetaForm.save sets the resident and the day-1-noon timestamp and
     * inserts the row.
     */
    method Create(residente: nat, tipo: Option<UtilityType>, valor: int, mes: int, ano: int)
      returns (r: Result<Budget, BudgetError>)
      modifies this
      ensures old(Valid()) ==> Valid()
      ensures r == Failure(InvalidBudget) <==>
                tipo.None? || !FitsBudget(valor) || mes !in MonthChoices || ano !in YearChoices
      ensures r == Failure(AlreadyExists) <==>
                tipo.Some? && FitsBudget(valor) && mes in MonthChoices && ano in YearChoices &&
                BudgetTaken(old(rows), residente, tipo.value, ano, mes)
      ensures r.Success? ==>
                r.value == Budget(old(nextId), residente, tipo.value, valor, FirstOfMonthNoon(ano, mes)) &&
                rows == old(rows) + [r.value] && nextId == old(nextId) + 1
      ensures r.Failure? ==> rows == old(rows) && nextId == old(nextId)
    {
      if tipo.None? || !FitsBudget(valor) || mes !in MonthChoices || ano !in YearChoices {
        return Failure(InvalidBudget);
      }
      if exists b :: b in rows && b.residente == residente && b.tipo == tipo.value &&
                     b.timestamp.year == ano && b.timestamp.month == mes {
        return Failure(AlreadyExists);
      }
      var instance := Budget(nextId, residente, tipo.value, valor, FirstOfMonthNoon(ano, mes));
      BudgetCheckPreventsClash(rows, instance);
      if Valid() {
        BudgetCheckKeepsOnePerMonth(rows, instance);
      }
      rows := InsertBudget(rows, instance).value;
      nextId := nextId + 1;
      r := Success(instance);
    }
  }

  /** A budget whose month is still free for its resident and type passes the database's unique_together check. */
  lemma BudgetCheckPreventsClash(bs: seq<Budget>, b: Budget)
    requires !BudgetTaken(bs, b.residente, b.tipo, b.timestamp.year, b.timestamp.month)
    ensures InsertBudget(bs, b) == Success(bs + [b])
  {
  }

  /** Adding such a budget keeps one budget per resident, type and month, and so unique_together. */
  lemma BudgetCheckKeepsOnePerMonth(bs: seq<Budget>, b: Budget)
    requires OnePerMonth(bs) && UniqueTogether(bs)
    requires !BudgetTaken(bs, b.residente, b.tipo, b.timestamp.year, b.timestamp.month)
    ensures OnePerMonth(bs + [b]) && UniqueTogether(bs + [b])
  {
  }
}
