/**
 * The tables of Gestao_Consumos/models.py as values: one datatype per Django
 * model, the closed choice sets, the default statuses, the unit/type rule that
 * Dispositivo.save enforces and the unique_together rule of Orcamento_limite.
 *
 * Money and quantities are fixed-point integers at the scales the DecimalField
 * declarations fix: consumption values and budget values in hundredths,
 * tariff prices in thousandths.
 */
module Models {
  import opened Wrappers

  /** Status columns: 0 means inactive, 1 means active. */
  const Inactive: int := 0
  const Active: int := 1

  /** Tipo.OPCOES: the three utility types. */
  datatype UtilityType = Agua | Luz | Gas

  /** Categoria.OPCOES: a device consumes or generates. */
  datatype Category = Consumidor | Gerador

  /** Dispositivo.OPCOES_UNIDADE and FornecedorTipo.OPCOES_UNIDADE. */
  datatype Unit = M3 | KWh

  /** The utility types in the order the views iterate them. */
  const AllTypes: seq<UtilityType> := [Luz, Agua, Gas]

  const TypeChoices: seq<string> := ["Agua", "Luz", "Gas"]
  const CategoryChoices: seq<string> := ["Consumidor", "Gerador"]
  const UnitChoices: seq<string> := ["m3", "kWh"]

  function TypeName(t: UtilityType): string
  {
    match t
    case Agua => "Agua"
    case Luz => "Luz"
    case Gas => "Gas"
  }

  function CategoryName(c: Category): string
  {
    match c
    case Consumidor => "Consumidor"
    case Gerador => "Gerador"
  }

  function UnitName(u: Unit): string
  {
    match u
    case M3 => "m3"
    case KWh => "kWh"
  }

  /** The stored string of a Tipo row read back: only the three choices name a type. */
  function ParseType(s: string): (r: Option<UtilityType>)
    ensures r.Some? <==> s in TypeChoices
    ensures r.Some? ==> TypeName(r.value) == s
    ensures forall t :: s == TypeName(t) ==> r == Some(t)
  {
    if s == "Agua" then Some(Agua)
    else if s == "Luz" then Some(Luz)
    else if s == "Gas" then Some(Gas)
    else None
  }

  /** The stored string of a Categoria row read back: only the two choices name a category. */
  function ParseCategory(s: string): (r: Option<Category>)
    ensures r.Some? <==> s in CategoryChoices
    ensures r.Some? ==> CategoryName(r.value) == s
    ensures forall c :: s == CategoryName(c) ==> r == Some(c)
  {
    if s == "Consumidor" then Some(Consumidor)
    else if s == "Gerador" then Some(Gerador)
    else None
  }

  /** The stored unit string read back: only "m3" and "kWh" name a unit. */
  function ParseUnit(s: string): (r: Option<Unit>)
    ensures r.Some? <==> s in UnitChoices
    ensures r.Some? ==> UnitName(r.value) == s
    ensures forall u :: s == UnitName(u) ==> r == Some(u)
  {
    if s == "m3" then Some(M3)
    else if s == "kWh" then Some(KWh)
    else None
  }

  /** A DateTimeField value; only year and month are business-significant. */
  datatype DateTime = DateTime(year: int, month: int, day: int, hour: int, minute: int, second: int)

  /** Residente (contact fields other than the name, e-mail and phone are left out). */
  datatype Resident = Resident(id: nat, nome: string, email: string, telemovel: string, status: int)

  /** A Categoria row: the category and whether it may be chosen for new devices. */
  datatype CategoryRow = CategoryRow(id: nat, categoria: Category, status: int)

  /**
   * Dispositivo. The type foreign key may be unset (None) on an unsaved
   * instance; the category and owner are given by their resolved values.
   */
  datatype Device = Device(
    id: nat, nome: string, tipo: Option<UtilityType>, categoria: Category,
    residente: nat, unidade: Unit, timestamp: DateTime, status: int)

  /** RegistoConsumo: valor in hundredths of the device's unit. */
  datatype ConsumptionRecord = ConsumptionRecord(id: nat, device: Device, valor: int, timestamp: DateTime)

  /** FornecedorTipo: one supplier's offer for one utility type. */
  datatype SupplierService = SupplierService(id: nat, fornecedor: nat, tipo: UtilityType, unidade: Unit, status: int)

  /** FornecedorValor: a price in thousandths for the service with id `service`, at an instant. */
  datatype Tariff = Tariff(id: nat, service: nat, valor: int, timestamp: int)

  /** FornecedorResidente: a resident's contract with a supplier service, at an instant. */
  datatype Contract = Contract(id: nat, service: SupplierService, residente: nat, timestamp: int, status: int)

  /** Orcamento_limite: a monthly budget in hundredths for one resident and utility type. */
  datatype Budget = Budget(id: nat, residente: nat, tipo: UtilityType, valor: int, timestamp: DateTime)

  /** DecimalField(max_digits=10, decimal_places=2) of RegistoConsumo.valor, in hundredths. */
  predicate FitsConsumption(v: int)
  {
    -10_000_000_000 < v < 10_000_000_000
  }

  /** DecimalField(max_digits=5, decimal_places=2) of Orcamento_limite.valor, in hundredths. */
  predicate FitsBudget(v: int)
  {
    -100_000 < v < 100_000
  }

  /** A new Residente: status defaults to inactive until an administrator activates it. */
  function NewResident(id: nat, nome: string, email: string, telemovel: string): (r: Resident)
    ensures r.status == Inactive
    ensures r.id == id && r.email == email && r.telemovel == telemovel
  {
    Resident(id, nome, email, telemovel, Inactive)
  }

  /** A new Dispositivo: status defaults to active, timestamp to the creation time. */
  function NewDevice(
    id: nat, nome: string, tipo: Option<UtilityType>, categoria: Category,
    residente: nat, unidade: Unit, now: DateTime): (d: Device)
    ensures d.status == Active && d.timestamp == now
    ensures d.tipo == tipo && d.unidade == unidade && d.residente == residente
  {
    Device(id, nome, tipo, categoria, residente, unidade, now, Active)
  }

  /** A new FornecedorResidente: status defaults to active. */
  function NewContract(id: nat, service: SupplierService, residente: nat, now: int): (c: Contract)
    ensures c.status == Active && c.timestamp == now
    ensures c.id == id && c.service == service && c.residente == residente
  {
    Contract(id, service, residente, now, Active)
  }

  /** The errors Dispositivo.full_clean can report. */
  datatype DeviceError = MissingType | InvalidName | UnitMustBeM3 | UnitMustBeKWh

  /** The unit a device of a given type is measured in: kWh for electricity, m3 for water and gas. */
  function RequiredUnit(t: UtilityType): Unit
  {
    match t
    case Luz => KWh
    case Agua => M3
    case Gas => M3
  }

  /** The unit/type rule; a device without a type is not constrained. */
  predicate UnitMatchesType(d: Device)
  {
    d.tipo.None? || d.unidade == RequiredUnit(d.tipo.value)
  }

  /** Dispositivo.clean: rejects a unit that does not suit the type; an unset type passes. */
  function Clean(d: Device): (r: Outcome<DeviceError>)
    ensures r.Pass? <==> UnitMatchesType(d)
    ensures d.tipo.None? ==> r.Pass?
    ensures r.Fail? ==> r.error == (if d.tipo == Some(Luz) then UnitMustBeKWh else UnitMustBeM3)
  {
    if d.tipo.None? then Pass
    else if (d.tipo.value == Agua || d.tipo.value == Gas) && d.unidade != M3 then Fail(UnitMustBeM3)
    else if d.tipo.value == Luz && d.unidade != KWh then Fail(UnitMustBeKWh)
    else Pass
  }

  /**
   * The field checks of full_clean that can fail for a device: the type
   * foreign key is required and the name is a non-blank CharField(max_length=100).
   * The closed datatypes already keep the choice fields within their choices.
   */
  function FieldErrors(d: Device): (errs: seq<DeviceError>)
    ensures errs == [] <==> d.tipo.Some? && 0 < |d.nome| <= 100
    ensures forall e :: e in errs ==> e == MissingType || e == InvalidName
  {
    (if d.tipo.None? then [MissingType] else [])
    + (if 0 < |d.nome| <= 100 then [] else [InvalidName])
  }

  /** A device that may be stored. */
  predicate ValidDevice(d: Device)
  {
    d.tipo.Some? && 0 < |d.nome| <= 100 && UnitMatchesType(d)
  }

  /** Model.full_clean: the field errors and then the errors of clean(), all collected. */
  function FullClean(d: Device): (errs: seq<DeviceError>)
    ensures errs == [] <==> ValidDevice(d)
    ensures Clean(d).Fail? ==> Clean(d).error in errs
  {
    FieldErrors(d) + (match Clean(d) case Pass => [] case Fail(e) => [e])
  }

  /** The row written by save(): an update of the row with the same primary key, or an insert. */
  function Upsert(table: seq<Device>, d: Device): (r: seq<Device>)
    ensures d in r
    ensures forall x :: x in r ==> x == d || x in table
    ensures forall x :: x in table && x.id != d.id ==> x in r
  {
    if table == [] then [d]
    else if table[0].id == d.id then [d] + Replace(table[1..], d)
    else [table[0]] + Upsert(table[1..], d)
  }

  /** Every row with d's primary key replaced by d. */
  function Replace(table: seq<Device>, d: Device): (r: seq<Device>)
    ensures forall x :: x in r ==> x == d || x in table
    ensures forall x :: x in table && x.id != d.id ==> x in r
  {
    if table == [] then []
    else [if table[0].id == d.id then d else table[0]] + Replace(table[1..], d)
  }

  /**
   * Dispositivo.save: full_clean runs before anything is written, so a
   * device that breaks the unit/type rule is never stored.
   */
  function SaveDevice(table: seq<Device>, d: Device): (r: Result<seq<Device>, seq<DeviceError>>)
    ensures r.Success? <==> ValidDevice(d)
    ensures r.Failure? ==> r.error != [] && r.error == FullClean(d)
    ensures r.Success? ==> d in r.value && forall x :: x in table && x.id != d.id ==> x in r.value
    ensures r.Success? && (forall x :: x in table ==> ValidDevice(x)) ==>
              forall x :: x in r.value ==> ValidDevice(x)
  {
    var errs := FullClean(d);
    if errs != [] then Failure(errs) else Success(Upsert(table, d))
  }

  /** Two budgets clash under unique_together = ('residente', 'tipo', 'timestamp'). */
  predicate SameBudgetKey(a: Budget, b: Budget)
  {
    a.residente == b.residente && a.tipo == b.tipo && a.timestamp == b.timestamp
  }

  predicate UniqueTogether(bs: seq<Budget>)
  {
    forall i, j :: 0 <= i < j < |bs| ==> !SameBudgetKey(bs[i], bs[j])
  }

  datatype IntegrityError = UniqueViolation

  /** An INSERT into Orcamento_limite: the database refuses a row whose key is taken. */
  function InsertBudget(bs: seq<Budget>, b: Budget): (r: Result<seq<Budget>, IntegrityError>)
    ensures r.Success? <==> forall x :: x in bs ==> !SameBudgetKey(x, b)
    ensures r.Success? ==> r.value == bs + [b]
    ensures UniqueTogether(bs) && r.Success? ==> UniqueTogether(r.value)
  {
    if exists i | 0 <= i < |bs| :: SameBudgetKey(bs[i], b) then Failure(UniqueViolation)
    else Success(bs + [b])
  }
}
