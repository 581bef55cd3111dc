# Household utility costs, budgets and supplier contracts

A Dafny model of the rules at the heart of the `Gestao_Consumos` Django app,
which tracks a household's electricity (Luz), water (Agua) and gas (Gas):

- **Prices.** The price of a supplier service is its latest tariff, or 1.0 when
  it has none. A resident's price for a utility comes from the latest active
  contract for that utility, or is 1.0 when there is no contract.
- **Consumption and cost.** Water and gas count only consumer devices.
  Electricity is billed net of generation (consumer minus generator, never
  below zero). Each cost is the consumption times the price, rounded to cents.
- **Alerts.** The dashboard classifies a month against the sum of its budgets
  as `sem_meta`, `excedido` or `dentro`. The monthly and annual PDF reports
  classify each utility against its own budget as `excedido` or `ok`, with the
  overage. The annual report lists only months with data. The trend chart
  gives one total per month.
- **Supplier switch.** In one step the resident's active contracts for the
  service's utility are closed and a new active contract is appended.
- **Validation.**
  - A device's unit must suit its type.
  - At most one consumption record per device and month.
  - At most one budget per resident, utility and month.
  - Submitted months and years are stamped as day 1 at 12:00.
  - The form choices are restricted to active rows.

Database tables are sequences of rows in insertion order. A query is a
`Filter` over such a sequence. `order_by('-timestamp').first()` is `Latest`:
among the rows with the greatest timestamp, the first in table order. The
three tables the app changes are classes whose `seq` field the methods
reassign: contracts (`Contracts.ContractBook`), consumption records
(`Forms.ConsumptionLog`) and budgets (`Forms.BudgetBook`).

Money and quantities are fixed-point integers at the scales the schema
declares:

- consumption and budgets in hundredths (`decimal_places=2`);
- tariff prices in thousandths (`decimal_places=3`).

The product of a consumption and a price is therefore in hundred-thousandths.
`round(x, 2)` becomes `Costs.Round2`: integer division by 1000 that rounds
halves away from zero. A sum or difference of cent amounts is already a whole
number of cents, so the later `round(..., 2)` calls of the views leave it
unchanged (`Costs.Round2Exact`).

Files:

| file | contents |
|---|---|
| `wrappers.dfy` | `Option`, `Result` and `Outcome` |
| `models.dfy` | the tables, the choice sets, the status defaults, the device rule, budget uniqueness |
| `lookup.dfy` | filters, the latest-row lookup, tariff and contract resolution |
| `costs.dfy` | consumption sums, rounding, the effective price and the cost per type |
| `budgets.dfy` | the dashboard's budget total and the report's per-type budget |
| `alerts.dfy` | the dashboard and report alert classifications |
| `reports.dfy` | the dashboard, the monthly and annual reports, the trend loop |
| `contracts.dfy` | the supplier switch |
| `forms.dfy` | the choice ranges, active-only filters, the consumption and budget forms |
| `scenarios.dfy` | worked examples on concrete tables |

## Model

| member | source | states |
|---|---|---|
| Models.ParseType | Gestao_Consumos/models.py:33-38 | a stored type string names a utility exactly when it is one of "Agua", "Luz", "Gas", and it names that one |
| Models.ParseCategory | Gestao_Consumos/models.py:49-55 | a stored category names a category exactly when it is "Consumidor" or "Gerador" |
| Models.ParseUnit | Gestao_Consumos/models.py:78-82 | a stored unit names a unit exactly when it is "m3" or "kWh" |
| Models.NewResident | Gestao_Consumos/models.py:18 | a new resident starts inactive (status 0) |
| Models.NewDevice | Gestao_Consumos/models.py:84-85 | a new device starts active (status 1), stamped with the creation time |
| Models.NewContract | Gestao_Consumos/models.py:189-192 | a new contract starts active (status 1), stamped with the creation time |
| Models.Clean | Gestao_Consumos/models.py:94-103 | passes exactly when the unit suits the type; a device without a type passes; water or gas not in m3 fails with the m3 error, electricity not in kWh with the kWh error |
| Models.FieldErrors | Gestao_Consumos/models.py:71-72 | the field checks pass exactly when the type is set and the name has 1 to 100 characters |
| Models.FullClean | Gestao_Consumos/models.py:105-107 | full_clean reports no error exactly for a valid device, and includes clean()'s error whenever clean() fails |
| Models.SaveDevice | Gestao_Consumos/models.py:105-107 | save succeeds exactly for a valid device and keeps every other row; a table of valid devices stays valid, so no stored device breaks the unit rule |
| Models.Upsert | Gestao_Consumos/models.py:105-107 | after save the device is in the table; every row is the device or an old row, and every row with another primary key is kept |
| Models.InsertBudget | Gestao_Consumos/models.py:215 | an insert succeeds exactly when no row has the same resident, type and timestamp, appends the row, and preserves uniqueness |
| Lookup.FilterMembers | Gestao_Consumos/views.py:86-91 | a filtered queryset holds exactly the rows that match the filter |
| Lookup.Latest | Gestao_Consumos/views.py:82 | `.first()` of the ordering returns nothing exactly for an empty queryset |
| Lookup.LatestIsFirstGreatest | Gestao_Consumos/views.py:82 | the row picked is in the queryset, has the greatest timestamp, and comes first among rows with that timestamp |
| Lookup.LatestPrice | Gestao_Consumos/views.py:81-83 | a service without tariffs is priced at 1.0; otherwise the price is 1.0 or the value of one of that service's tariffs |
| Lookup.LatestPriceIsLatest | Gestao_Consumos/views.py:81-83 | a service without tariffs costs exactly 1.0; otherwise the price is the value of one of its tariffs whose timestamp no other tariff of it exceeds |
| Lookup.ActiveContract | Gestao_Consumos/views.py:86-91 | nothing is found exactly when no row passes the filter; a contract found is in the table and is the resident's, of the type, with status 1 |
| Lookup.ActiveContractIsLatest | Gestao_Consumos/views.py:86-91 | there is no contract exactly when the resident has no active contract of the type; otherwise it is an active contract of the resident and type with the latest timestamp |
| Costs.ConsumerSumNonNegative | Gestao_Consumos/views.py:94-99 | the consumer sum of non-negative readings is not negative |
| Costs.GeneratorsNeverCount | Gestao_Consumos/views.py:94-99 | generator records never change the consumer sum, wherever they stand, and the sum over no records is 0 |
| Costs.OtherTypesNeverCount | Gestao_Consumos/views.py:94-99 | records of another utility type never change its consumer sum |
| Costs.NetElectricity | Gestao_Consumos/views.py:111-118 | net electricity is never negative; it is the consumer sum minus the generator sum, or 0 when that is negative |
| Costs.Round2 | Gestao_Consumos/views.py:124-126 | the result is the nearest cent to the amount, halves going away from zero |
| Costs.Round2Exact | Gestao_Consumos/views.py:175 | rounding an amount that is already whole cents leaves it unchanged |
| Costs.Cost | Gestao_Consumos/views.py:124-126 | the cost is within half a cent of the consumption times the price |
| Costs.CostSign | Gestao_Consumos/views.py:123-127 | zero consumption costs zero; a non-negative consumption at a non-negative price never costs less than zero |
| Costs.CostAtDefaultPrice | Gestao_Consumos/views.py:107-108 | at the fallback price 1.0 the cost equals the consumption |
| Costs.EffectivePrice | Gestao_Consumos/views.py:105-108 | without an active contract the price is 1.0; in every case the price is 1.0 or the value of some tariff |
| Costs.EffectivePriceSource | Gestao_Consumos/views.py:105-108 | without an active contract the price is 1.0; with one, it is the latest price of the service of an active contract of the resident and type that no other active contract postdates, so 1.0 or the value of a tariff of that service |
| Costs.EffectivePriceNonNegative | Gestao_Consumos/views.py:105-108 | with non-negative tariffs the price is not negative |
| Costs.CostsByType | Gestao_Consumos/views.py:103-127 | the result has exactly the keys Luz, Agua and Gas, and each is the rounded product of that type's billed consumption and its effective price |
| Costs.CostWithoutContract | Gestao_Consumos/views.py:105-127 | a type with no active contract is billed at 1.0, so its cost is its consumption |
| Costs.NoRecordsNoCost | Gestao_Consumos/views.py:94-127 | a period without records costs 0 for every type, whatever the prices |
| Costs.ElectricityCostNonNegative | Gestao_Consumos/views.py:117-124 | the electricity cost is never negative with non-negative tariffs, whatever the readings |
| Costs.CostsNonNegative | Gestao_Consumos/views.py:103-127 | non-negative readings and tariffs give non-negative costs for all types |
| Costs.WaterGasIgnoreGenerators | Gestao_Consumos/views.py:119-126 | generator records never change the water or gas cost |
| Budgets.MonthBudgetTotal | Gestao_Consumos/views.py:177-180 | a month in which the resident has no budget totals 0, so the dashboard shows sem_meta |
| Budgets.BudgetMeta | Gestao_Consumos/views.py:462-465 | the meta of a month and type is 0 or the value of one of the resident's budgets for that month and type |
| Budgets.BudgetMetaIsLast | Gestao_Consumos/views.py:462-472 | a month and type without a budget reads 0; otherwise the value of the last budget on that key, since later rows overwrite earlier ones in the dict |
| Budgets.OnePerMonthIsUniqueTogether | Gestao_Consumos/models.py:215 | one budget per resident, type and month implies the model's unique_together |
| Budgets.DashboardMetaSplits | Gestao_Consumos/views.py:177-180 | with one budget per resident, type and month, the dashboard's budget total is the sum of the report's three per-type budgets |
| Alerts.DashboardAlert | Gestao_Consumos/views.py:182-187 | exactly one status holds: sem_meta iff the budget is not positive, excedido iff the cost exceeds a positive budget, dentro iff the budget is positive and not exceeded |
| Alerts.ReportAlert | Gestao_Consumos/views.py:471-480 | excedido iff the cost exceeds a positive budget (a cost equal to the budget is ok); the overage is present only then and equals cost minus budget, which is positive |
| Alerts.DashboardAgreesWithReport | Gestao_Consumos/views.py:474-479 | the dashboard's excedido and the report's excedido agree on the same cost and budget, and the report shows an overage exactly then |
| Reports.MonthOfYearIsMonth | Gestao_Consumos/views.py:459-468 | filtering the year's records by month selects the same records as the dashboard's month filter |
| Reports.DashboardView | Gestao_Consumos/views.py:150-187 | the costs are those of the resident's records of that month; the electricity shown is their net electricity and the water and gas their consumer sums; the total is the sum of the three costs and the budget the month's budget total; the status is sem_meta, excedido or dentro exactly as DashboardAlert classifies them |
| Reports.MonthCosts | Gestao_Consumos/views.py:466-468 | the report's costs of a month, filtered from the year's records, are the costs of the dashboard's month filter |
| Reports.MonthTotal | Gestao_Consumos/views.py:398-402 | the trend value of a month is the dashboard's total cost for that month |
| Reports.MonthMetas | Gestao_Consumos/views.py:462-472 | each month has a budget entry for exactly Luz, Agua and Gas, and each entry is that type's metas_ano_dict value for the month (0 without a budget) |
| Reports.AlertsFor | Gestao_Consumos/views.py:469-480 | a month has exactly three alerts, the i-th being the alert of the i-th of Luz, Agua, Gas for that type's cost and budget |
| Reports.MonthAlertsTotal | Gestao_Consumos/views.py:486 | the month's alerts add up to the sum of its three costs |
| Reports.MonthlyReportOf | Gestao_Consumos/views.py:466-490 | the monthly report holds the month's alerts, and its total is the month's total cost |
| Reports.DashboardMatchesMonthlyReport | Gestao_Consumos/views.py:175-180 | the dashboard and the monthly report of a month show the same total cost; with one budget per month, the dashboard's budget is the sum of the report's three budgets |
| Reports.YearDetails | Gestao_Consumos/views.py:495 | the year has twelve month entries |
| Reports.YearDetailAt | Gestao_Consumos/views.py:495-500 | the m-th entry of the year is the detail of month m |
| Reports.YearMonths | Gestao_Consumos/views.py:495 | the entries are months 1 to 12 in order |
| Reports.MonthStep | Gestao_Consumos/views.py:496-503 | a month's entry is built from its costs and budgets: the total of the three costs and the three alerts |
| Reports.Listed | Gestao_Consumos/views.py:516-517 | the listing has no more entries than there are months |
| Reports.ListedHaveData | Gestao_Consumos/views.py:504-517 | every listed month is one of the months and has data |
| Reports.DataMonthsListed | Gestao_Consumos/views.py:504-517 | every month with data is listed |
| Reports.ListedIncreasing | Gestao_Consumos/views.py:495-517 | the listed months of a run of consecutive months increase |
| Reports.HasDataFor | Gestao_Consumos/views.py:503-505 | a month has data exactly when some type has a positive cost or a positive budget |
| Reports.MonthEntry | Gestao_Consumos/views.py:501-515 | the inner loop over Luz, Agua, Gas builds the month's three alerts, their total and whether the month has data |
| Reports.AnnualMonth | Gestao_Consumos/views.py:496-517 | one pass of the outer loop yields the detail of that month |
| Reports.AnnualStep | Gestao_Consumos/views.py:495-517 | one pass of the outer loop extends the listing by the month when it has data, and adds the month's total to the annual total |
| Reports.AnnualReport | Gestao_Consumos/views.py:493-517 | the listing is the months with data among months 1 to 12, and the annual total is the sum of the twelve month totals |
| Reports.MonthsListing | Gestao_Consumos/views.py:495-517 | the listing of months 1 to n holds exactly the months with data, each month's own entry, in increasing order |
| Reports.AnnualReportContents | Gestao_Consumos/views.py:495-517 | the annual listing holds only months with data, every month with data, in increasing order, each with that month's alerts and total |
| Reports.Totals | Gestao_Consumos/views.py:398-406 | one total per month entry |
| Reports.TotalsAddUp | Gestao_Consumos/views.py:514-515 | the month totals add up to the annual total |
| Reports.TrendMonth | Gestao_Consumos/views.py:399-402 | a pass of the trend loop yields the month's total cost |
| Reports.Trend | Gestao_Consumos/views.py:398-402 | the trend holds the twelve month totals, January first |
| Reports.TrendIsMonthTotals | Gestao_Consumos/views.py:398-406 | the i-th trend value is the total cost of month i+1 |
| Reports.TrendAddsUpToAnnualTotal | Gestao_Consumos/views.py:398-402 | the trend values add up to the annual report's total |
| Contracts.CloseAll | Gestao_Consumos/views.py:588-592 | the update keeps the number of rows and every id, and afterwards no row is an active contract of the resident for the type |
| Contracts.Switch | Gestao_Consumos/views.py:587-599 | the switch adds exactly one row, last, and it is the new active contract with the given id, service, resident and time |
| Contracts.SwitchLeavesOnlyNewActive | Gestao_Consumos/views.py:587-599 | after a switch the table has one more row, the new last row is an active contract of the resident for the type, and no earlier row is |
| Contracts.SwitchSelectsNew | Gestao_Consumos/views.py:587-599 | after a switch the active-contract lookup returns the contract just created |
| Contracts.SwitchTouchesOnlyStatus | Gestao_Consumos/views.py:588-592 | no row is removed and every id is kept; rows that were not the resident's active contracts of the type are unchanged; those that were only have their status set to 0 |
| Contracts.CloseAllKeepsOtherPairs | Gestao_Consumos/views.py:588-592 | closing one resident's contracts of one type leaves the active contracts of every other resident and type as they were |
| Contracts.SwitchKeepsOtherPairs | Gestao_Consumos/views.py:587-599 | a switch does not change the active contract of any other resident or type |
| Contracts.SwitchKeepsOneActivePerType | Gestao_Consumos/views.py:587-599 | at most one active contract per resident and type is preserved by a switch |
| Contracts.FindService | Gestao_Consumos/views.py:585 | the lookup finds a service with the requested id, and finds nothing exactly when no service has it |
| Contracts.ContractBook.Associate | Gestao_Consumos/views.py:579-599 | an unknown service changes nothing; otherwise the table becomes the switch (matching contracts closed, the new active contract appended with the next id), and one active contract per resident and type is preserved |
| Forms.ChoiceRanges | Gestao_Consumos/forms.py:6-9 | the month choices are exactly 1 to 12 and the year choices exactly 2025 to 2030 |
| Forms.SelectableDevices | Gestao_Consumos/forms.py:72-79 | a form built without a resident offers every device; the offered devices are never more than the table's |
| Forms.SelectableDevicesAreOwnActive | Gestao_Consumos/forms.py:72-79 | with a resident, the form offers exactly that resident's devices with status 1 |
| Forms.SelectableCategoriesAreActive | Gestao_Consumos/forms.py:29-32 | the device form offers exactly the categories with status 1 |
| Forms.FindDevice | Gestao_Consumos/forms.py:65-79 | a submitted device is accepted only if it is in the offered queryset with that id, and refused exactly when no offered device has it |
| Forms.Chosen | Gestao_Consumos/forms.py:60-61 | a choice field keeps a value exactly when it is one of its choices |
| Forms.CleanConsumo | Gestao_Consumos/forms.py:82-95 | a missing month or year ends in the TypeError of int(None); otherwise the submission is a duplicate exactly when a device is chosen and another record of that device, other than the one being edited, falls in that year and month |
| Forms.EditInOwnMonthAccepted | Gestao_Consumos/forms.py:88-92 | re-saving an existing record in its own month is accepted, because its own primary key is excluded |
| Forms.Decide | Gestao_Consumos/forms.py:82-95 | a missing month or year, and only that, ends in the server error; an accepted record has the chosen device, the next id and the day-1 12:00 timestamp of the chosen month |
| Forms.SubmitConsumo | Gestao_Consumos/views.py:287-296 | a month or year outside the choices is a server error; a submission succeeds exactly when the month, year, value and device are valid and no record of the device is in that month; the record saved has the next id, the offered device and a day-1 12:00 timestamp of the chosen month |
| Forms.SubmitKeepsOnePerDeviceMonth | Gestao_Consumos/forms.py:82-95 | an accepted record keeps at most one record per device and month |
| Forms.ResubmitRejected | Gestao_Consumos/forms.py:88-95 | after a record is saved, submitting the same device, month and year again is refused |
| Forms.ConsumptionLog.Register | Gestao_Consumos/views.py:285-296 | the outcome is that of the submission; success appends exactly the new record, and failure changes nothing; one record per device and month is preserved |
| Forms.BudgetBook.Create | Gestao_Consumos/views.py:368-385 | an invalid form adds nothing; a budget already set for the resident, type, year and month adds nothing; otherwise it appends the budget with the resident and a day-1 12:00 timestamp, keeping one budget per month and unique_together |
| Forms.BudgetTaken | Gestao_Consumos/views.py:371-376 | when no budget of the resident, type, year and month exists, the report reads 0 for that month and type |
| Forms.BudgetCheckPreventsClash | Gestao_Consumos/views.py:371-378 | a budget that passes the month check never clashes with the database's unique_together |
| Forms.BudgetCheckKeepsOnePerMonth | Gestao_Consumos/forms.py:118-126 | saving such a budget keeps one budget per resident, type and month |
| Scenarios.LuzReadings | Gestao_Consumos/views.py:94-115 | two consumers of 100.00 and 120.00 kWh and a generator of 30.00 kWh sum to 220.00 and 30.00 |
| Scenarios.LuzPrice | Gestao_Consumos/views.py:81-91 | with one active contract whose tariff went from 0.150 to 0.200, the price is 0.200 |
| Scenarios.ElectricityWithSolar | Gestao_Consumos/views.py:103-127 | those readings at that price bill the net 190.00 kWh at 38.00 |
| Scenarios.SurplusGenerationBillsNothing | Gestao_Consumos/views.py:117 | generating more than is drawn bills 0 kWh, not a credit |
| Scenarios.WaterWithoutContract | Gestao_Consumos/views.py:105-108 | 10 m3 of water without a contract costs 10.00 |
| Scenarios.BudgetExceeded | Gestao_Consumos/views.py:474-479 | 38.00 against a budget of 30.00 is excedido by 8.00 |
| Scenarios.BudgetBoundary | Gestao_Consumos/views.py:182-187 | a cost equal to the budget is dentro and ok; one cent more is excedido by 0.01 |
| Scenarios.SwitchingSupplier | Gestao_Consumos/views.py:587-599 | switching electricity to another service makes its contract the active one and closes the old one |

## Left out

- Floating point: the views convert to `float` and call Python's `round`, whose result on binary floats can differ from exact decimal rounding at half-cent ties. The model computes in exact fixed point and rounds halves away from zero.
- `Costs.Round2`: models `round(x, 2)` on exact values, not on Python floats. Amounts within float precision agree, but a half-cent tie may round the other way in the app.
- HTML templates, PDF rendering, chart JSON and the user messages: presentation only. The reports are modelled as the data handed to the templates.
- Authentication, registration, user synchronisation and the redirect of `_get_residente_or_redirect`. The resident is a parameter.
- Query mechanics and `transaction.atomic`. Tables are sequences. The contract switch is one method, so its all-or-nothing behaviour holds by construction.
- The tie order of `order_by('-timestamp').first()` between rows with equal timestamps is up to the database. The model takes the first such row in table order.
- Clock and time zone: `datetime.now()`, `timezone.now` and `make_aware` become a timestamp parameter or a plain date-time value. The naive datetime that `registar_consumo` writes and the aware one of `ConsumoManualForm.save` are both the same day-1 12:00 value.
- `_parse_ano_mes`: the year and month are parameters of the report functions.
- Plain CRUD views (device list, delete, record edit and delete, budget edit and delete, settings) and `EditarMetaForm`: they only save or delete rows. Record editing is covered by `Forms.CleanConsumo` with the instance's primary key.
- Text fields other than the device name (resident contact data, address, password, supplier names) and their uniqueness constraints: not part of the cost, budget and contract rules.
- Primary keys are assumed positive, as AutoField keys are, so `if self.instance.pk` is the same as "an instance is being edited".
- `FornecedorTipo.objects.get` raising `DoesNotExist` for an unknown service is modelled as a `Failure` that changes nothing. The exception page itself is not modelled.
- The `try`/`except` around the budget save in `relatorios`: the duplicate check already rules out the integrity error (`Forms.BudgetCheckPreventsClash`). Other database failures are not modelled.
- Tipo rows: `UtilityType` stands for the type's name. The app compares names in the cost, contract and report queries, but compares Tipo rows in the budget `exists()` check and in `unique_together`. `Tipo.tipo` is not unique, so two Tipo rows named "Luz" are possible in the app, and a second Luz budget for a month would then pass both checks.
- Forms.BudgetBook.Create: the one-budget-per-month invariant holds only when there is one Tipo row per name. Forms.BudgetCheckKeepsOnePerMonth is conditional in the same way.
- Budgets.BudgetMeta: when several budgets share a month and type, the model lets the last in table order win. `Orcamento_limite` declares no ordering, so in the app the database's iteration order decides which one wins.
- Foreign keys are embedded copies: a record holds a copy of its device row and a contract a copy of its service row. In the app, later edits to a device's type or category, or to a service, are seen by every query over past records and contracts. The model keeps the values copied when the row was written.
- The 400 response of `gerar_pdf` for a report type other than mensal or anual is not modelled. Only the two report kinds are.
- Routing, admin registration and bootstrap configuration are not part of this model.
