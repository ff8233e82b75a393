# Dental clinic record store and patient ledger, in Dafny

This project models the record store of a small dental-clinic app and the
patient ledger that is computed from it. It covers:

- the newer store (`scr/services/db.ts`), as the class `ClinicStore.LocalDatabase`:
  - users, reminders and patients;
  - appointments and treatments;
  - payments with a completed/cancelled status;
  - a procedure catalog and a deduplicated list of consultation reasons;
  - the ledger views: balance, debtors and dashboard stats;
  - the one-step integral visit;
  - the "recently treated patients" view.
- the older store (`services/db.ts`), as the class `LegacyStore.LegacyDatabase`:
  - its payments have no status, so the ledger counts every payment;
  - it adds the seven-day income chart.
- the finance screen (`scr/components/FinanceManager.tsx`), in module `Finance`:
  - the income of the current day, month or year;
  - the payment search;
  - the debtor list with each debtor's last treatment date and the total debt;
  - the debtor search and its four sort orders.
- the integral-attention form (`components/IntegralAttentionModal.tsx`), in module `IntegralAttention`:
  - the odontogram upsert;
  - the visit's cost and the projected balance;
  - the record bundle the form hands to `saveIntegralVisit`.

A patient's debt is never stored. It is recomputed on every read as:

> the cost of the patient's treatments that are not `Planificado`, minus the patient's payments that are not cancelled.

In the older store, every payment counts.

Both store classes keep their collections as `seq` fields. Every method
changes only the fields its `modifies` clause names, and its `ensures` state
the new contents. The ledger, the search, the debtor list and the projection
are functions on those sequences, and the lemmas beside them state what each
operation does to a patient's debt and to the income.

Conventions:

- Money is an `int` number of bolivianos.
- Timestamps are `int` milliseconds.
- The calendar (which day, month and year a timestamp falls on) is a function the caller passes in.
- Generated ids and the current time are parameters of the methods that need them.

Modules:

- `Wrappers`: the `Option` type.
- `Seqs`:
  - `filter`, `reduce` with `+`, `findIndex`, `find` and `slice`;
  - the facts about them that the proofs use.
- `Sorting`: a stable insertion sort by an integer key. It stands for `Array.prototype.sort` with a subtracting comparator.
- `Text`: ASCII/Latin-1 lower-casing, `includes`, decimal numerals and `join`.
- `Records`: the record shapes and the `{ ...x, ...patch }` updates.
- `Ledger`: the newer store's ledger, over payments with a status.
- `Views`: the patient search and the recent-treated-patients view.
- `ClinicStore`: the newer store class.
- `LegacyStore`: the older store's ledger, its daily income chart and its class.
- `Finance`: the finance screen.
- `IntegralAttention`: the integral-attention form.

## Model

| member | source | states |
|---|---|---|
| Records.PatientPatchKeepsOtherFields | scr/services/db.ts:285-291 | each of the eight fields the patch leaves out keeps the patient's value; an empty patch leaves the patient equal |
| Records.PatientPatchOverwritesPresentFields | scr/services/db.ts:285-291 | each of the eight fields the patch carries takes the patch's value |
| Records.PatientPatchIdempotent | scr/services/db.ts:285-291 | applying the same patch twice equals applying it once |
| Ledger.PatientBalance | scr/services/db.ts:366-375 | totalCost is the cost of the patient's non-Planificado treatments, totalPaid the amount of the patient's non-cancelled payments, debt their difference |
| Ledger.UnknownPatientHasZeroBalance | scr/services/db.ts:366-375 | an id no treatment or payment carries has balance 0/0/0 |
| Ledger.TotalsNonNegative | scr/services/db.ts:371-374 | with non-negative costs and amounts both totals are non-negative |
| Ledger.AddTreatmentEffect | scr/services/db.ts:310-315 | a prepended treatment raises its patient's totalCost by its cost unless it is Planificado, and changes nothing else |
| Ledger.AddPaymentEffect | scr/services/db.ts:346-355 | a prepended non-cancelled payment lowers its patient's debt by its amount; totalCost is unchanged |
| Ledger.CancelPayment | scr/services/db.ts:357-363 | same length, ids, amounts and patients; only the first payment with that id changes, and it becomes that payment with status cancelled, every other field kept |
| Ledger.CancelPaymentNoOp | scr/services/db.ts:357-363 | an unknown id, or a payment already cancelled, leaves the payments equal |
| Ledger.CancelPaymentIdempotent | scr/services/db.ts:357-363 | cancelling twice equals cancelling once |
| Ledger.CancelPaymentEffect | scr/services/db.ts:357-363 | cancelling a completed payment of amount A raises that patient's debt by exactly A; no other patient's balance and no totalCost changes |
| Ledger.IncomeEffects | scr/services/db.ts:437-441 | income rises by a new active payment's amount, and falls by a cancelled completed payment's amount; an unknown id leaves it equal |
| Ledger.DebtorsBy | scr/services/db.ts:377-382 | every entry is a patient with its positive debt; every patient with positive debt is present; non-increasing debt; a permutation of the filtered map |
| Ledger.DebtorsCount | scr/services/db.ts:377-382 | there are exactly as many entries as patients with positive debt |
| Ledger.DebtorsAreThePatientsInDebt | scr/services/db.ts:377-382 | an entry is in getDebtors iff its patient is in the store and its debt is the patient's positive ledger debt; non-increasing order |
| Ledger.PaymentsAfterVisit | scr/services/db.ts:402-412 | a completed payment dated with the treatment is prepended iff the visit carries a positive amount; it is exactly the visit's payment record, with its amount, method, patient, patient name and `Pago por:` notes |
| Ledger.VisitDebtEffect | scr/services/db.ts:385-425 | a visit raises its patient's debt by the treatment cost (unless Planificado) and lowers it by the recorded payment; other patients are unaffected |
| LedgerExamples.DebtorsExample | scr/services/db.ts:377-382 | patients with debts 300, 0, 150, -20 give exactly the entries 300 and 150, in that order |
| Views.SearchPatientsAsWritten | scr/services/db.ts:269-276 | the search as written, over the lowered query on names and the raw dni: at most 10 matching patients, in store order; a match with k < 10 matches before it is the k-th result; fewer than 10 results means every match is there |
| Views.SearchAsWrittenMissesDniWithLetters | scr/services/db.ts:269-276 | a patient whose dni is `8493021 LP` is not found by searching for that very dni |
| Views.SearchPatients | scr/services/db.ts:269-276 | the corrected search, with the dni lowered too: at most 10 matching patients, in store order; a match with k < 10 matches before it is the k-th result; fewer than 10 results means every match is there |
| Views.SearchKeepsEarlierMatches | scr/services/db.ts:269-276 | with no patient record repeated, either search returns a patient only with every matching patient stored before it |
| Views.QueryOfOwnFieldMatches | scr/services/db.ts:270-274 | a query equal to a patient's dni, first name or last name finds that patient |
| Views.RecentTreatedPatients | scr/services/db.ts:318-337 | at most 5 entries with distinct patients; each treatment is the patient's and none of that patient's is newer; newest first; unresolvable ids are skipped; a missing resolvable patient means 5 entries no older than it |
| Views.NewestPerPatient | scr/services/db.ts:319-326 | one pass over the newest-first treatments keeps each patient's first, hence newest, treatment, in first-seen order |
| Views.ResolvePatients | scr/services/db.ts:328-334 | keeps, in map order, exactly the ids `find` resolves to a patient, each with its treatment |
| Views.ResolvedOrder | scr/services/db.ts:328-334 | the resolved entries have distinct patients and non-increasing dates |
| ClinicStore.RestoredGoal | scr/services/db.ts:142 | `financialGoal \|\| 3300`: a saved non-zero goal is kept, a missing or zero one becomes 3300 |
| ClinicStore.LocalDatabase.constructor | scr/services/db.ts:132-157 | each saved collection is restored, a missing one falls back to its default; without a snapshot every collection is the default |
| ClinicStore.LocalDatabase.AddProcedure | scr/services/db.ts:188-192 | appends one catalog entry with the given id, name and price |
| ClinicStore.LocalDatabase.RemoveProcedure | scr/services/db.ts:194-197 | keeps exactly the entries with another id, in order |
| ClinicStore.WithReason | scr/services/db.ts:203-208 | the reason is present afterwards; a reason already present leaves the list equal, a new one is appended |
| ClinicStore.WithReasonIdempotent | scr/services/db.ts:203-208 | adding a reason twice equals adding it once |
| ClinicStore.ReasonsStayDistinct | scr/services/db.ts:203-213 | a duplicate-free list stays duplicate-free under add and remove |
| ClinicStore.LocalDatabase.AddConsultationReason | scr/services/db.ts:203-208 | the list becomes WithReason of the old one and never gains a duplicate |
| ClinicStore.WithoutReason | scr/services/db.ts:210-213 | every occurrence is gone, every other reason stays, order is kept |
| ClinicStore.LocalDatabase.RemoveConsultationReason | scr/services/db.ts:210-213 | the list becomes WithoutReason of the old one and never gains a duplicate |
| ClinicStore.LocalDatabase.Login | scr/services/db.ts:216-224 | the first user with that username, if its password matches, gets lastAccess set and is returned; when there is no such user, or its password differs (even if a later user with that username has it), nothing changes and null is returned |
| ClinicStore.LocalDatabase.AddUser | scr/services/db.ts:228-233 | appends one user with the given id and the current time as lastAccess |
| ClinicStore.LocalDatabase.UpdateUser | scr/services/db.ts:235-238 | only the first user with that id is patched; an unknown id changes nothing |
| ClinicStore.LocalDatabase.DeleteUser | scr/services/db.ts:240 | keeps exactly the users with another id, in order |
| ClinicStore.LocalDatabase.AddReminder | scr/services/db.ts:245-257 | prepends one uncompleted reminder carrying its author's name and id |
| ClinicStore.Toggled | scr/services/db.ts:259-262 | only the first reminder with that id changes, and only its completed flag flips |
| ClinicStore.ToggleTwice | scr/services/db.ts:259-262 | toggling twice restores the reminders |
| ClinicStore.LocalDatabase.ToggleReminder | scr/services/db.ts:259-262 | the reminders become Toggled of the old ones |
| ClinicStore.LocalDatabase.DeleteReminder | scr/services/db.ts:264 | keeps exactly the reminders with another id, in order |
| ClinicStore.LocalDatabase.SearchPatients | scr/services/db.ts:269-276 | the store's search is the search as written over its patients |
| ClinicStore.LocalDatabase.AddPatient | scr/services/db.ts:278-283 | prepends one patient with the given id, the draft's fields and the current time |
| ClinicStore.LocalDatabase.UpdatePatient | scr/services/db.ts:285-291 | only the first patient with that id is patched; an unknown id changes nothing |
| ClinicStore.LocalDatabase.Appointments | scr/services/db.ts:294 | the appointments, oldest first, as a permutation of the store's |
| ClinicStore.LocalDatabase.AddAppointment | scr/services/db.ts:296-301 | appends exactly one appointment with the given id and fields |
| ClinicStore.LocalDatabase.Treatments | scr/services/db.ts:304 | the treatments, newest first, as a permutation of the store's |
| ClinicStore.LocalDatabase.TreatmentsByPatient | scr/services/db.ts:306-308 | exactly that patient's treatments, newest first |
| ClinicStore.LocalDatabase.AddTreatment | scr/services/db.ts:310-315 | prepends exactly one treatment with the given id and fields |
| ClinicStore.LocalDatabase.Payments | scr/services/db.ts:340 | the payments, newest first, as a permutation of the store's |
| ClinicStore.LocalDatabase.PaymentsByPatient | scr/services/db.ts:342-344 | exactly that patient's payments, newest first |
| ClinicStore.LocalDatabase.AddPayment | scr/services/db.ts:346-355 | prepends one completed payment; the payer's debt drops and the income rises by its amount |
| ClinicStore.LocalDatabase.CancelPayment | scr/services/db.ts:357-363 | the payments become CancelPayment of the old ones, nothing else changes |
| ClinicStore.LocalDatabase.Balance | scr/services/db.ts:366-375 | the patient's ledger balance, with debt = totalCost - totalPaid |
| ClinicStore.LocalDatabase.Debtors | scr/services/db.ts:377-382 | exactly the patients with positive debt, each with that debt, in non-increasing debt order |
| ClinicStore.LocalDatabase.SaveIntegralVisit | scr/services/db.ts:385-425 | one treatment prepended; a payment only for a positive amount; a pending appointment only when requested; each patient's debt changes by the visit's cost and recorded payment only |
| ClinicStore.LocalDatabase.SetFinancialGoal | scr/services/db.ts:432-435 | the goal becomes the given amount, nothing else changes |
| ClinicStore.StatsOf | scr/services/db.ts:437-451 | income is the active income, patients the patient count, todayApps is 0 iff no appointment falls on the given day |
| ClinicStore.LocalDatabase.Stats | scr/services/db.ts:437-451 | the dashboard figures of the store's collections |
| ClinicStore.LocalDatabase.RecentTreatedPatients | scr/services/db.ts:318-337 | the recent-treated view of the store's treatments and patients |
| LegacyStore.PatientBalance | services/db.ts:249-257 | totalCost as in the newer store, totalPaid the sum of all the patient's payments, debt their difference |
| LegacyStore.UnknownPatientHasZeroBalance | services/db.ts:249-257 | an id no record carries has balance 0/0/0 |
| LegacyStore.AddPaymentEffect | services/db.ts:241-246 | any prepended payment lowers its patient's debt by its amount |
| LegacyStore.DebtorsOf | services/db.ts:259-264 | an entry is present iff its patient's debt is positive and equals the entry's; non-increasing order; a permutation of the positive-debt entries, one per such patient record |
| LegacyStore.IncomeOfNewPayment | services/db.ts:320 | income rises by a new payment's amount |
| LegacyStore.IncomeNonNegative | services/db.ts:320 | with non-negative amounts the income is non-negative |
| LegacyStore.StatsOf | services/db.ts:319-329 | income is the sum of all payments, patients the patient count, todayApps as in the newer store |
| LegacyStore.PaymentsAfterVisit | services/db.ts:284-294 | a payment dated with the treatment is prepended iff the visit carries a positive amount; it is exactly the visit's payment record, with its amount, method, patient, patient name and `Pago por:` notes |
| LegacyStore.VisitDebtEffect | services/db.ts:267-307 | a visit raises its patient's debt by the treatment cost (unless Planificado) and lowers it by the recorded payment |
| LegacyStore.WeekHasEveryWeekday | services/db.ts:335-345 | seven consecutive days fall on seven different weekdays |
| LegacyStore.PatientIds | services/db.ts:342 | the distinct patient ids of the payments: each payer is in it, and there are no more ids than payments |
| LegacyStore.PatientIdsArePayers | services/db.ts:342 | every id in the set is the patient of one of the payments |
| LegacyStore.IncomeOnMeaning | services/db.ts:338-348 | a day's entry carries its weekday's name, the sum of that day's payments and the number of distinct payers that day, 0 iff nobody paid |
| LegacyStore.WeekNamesDistinct | services/db.ts:333-345 | the seven entries carry seven different day names |
| LegacyStore.DailyIncomeStats | services/db.ts:331-351 | exactly 7 entries, oldest day first, entry k for the day today - 6 + k |
| LegacyStore.LegacyDatabase.constructor | services/db.ts:65-87 | a store over the given collections |
| LegacyStore.LegacyDatabase.DeleteUser | services/db.ts:135 | removes every user with that id and keeps the others in their order |
| LegacyStore.LegacyDatabase.ToggleReminder | services/db.ts:154-157 | flips completed on the first reminder with that id only |
| LegacyStore.LegacyDatabase.UpdatePatient | services/db.ts:180-186 | an unknown id changes nothing; otherwise only the first patient with that id is patched |
| LegacyStore.LegacyDatabase.AddAppointment | services/db.ts:191-196 | appends exactly one appointment |
| LegacyStore.LegacyDatabase.AddTreatment | services/db.ts:205-210 | prepends exactly one treatment |
| LegacyStore.LegacyDatabase.AddPayment | services/db.ts:241-246 | prepends the payment as given; the payer's debt drops and the income rises by its amount |
| LegacyStore.LegacyDatabase.Balance | services/db.ts:249-257 | the patient's balance without a status filter |
| LegacyStore.LegacyDatabase.Debtors | services/db.ts:259-264 | the older store's debtor list |
| LegacyStore.LegacyDatabase.SaveIntegralVisit | services/db.ts:267-307 | one treatment; a payment only for a positive amount, dated with the treatment; a pending appointment only when requested; the debt effect |
| LegacyStore.LegacyDatabase.Stats | services/db.ts:319-329 | the older dashboard figures |
| LegacyStore.LegacyDatabase.RecentTreatedPatients | services/db.ts:213-232 | the same recent-treated view as the newer store |
| LegacyStore.LegacyDatabase.DailyIncome | services/db.ts:331-351 | the seven-day chart of the store's payments |
| Finance.FramesNest | scr/components/FinanceManager.tsx:59-68 | a payment counted today is counted this month, one counted this month is counted this year, and none is cancelled |
| Finance.IncomeFramesNest | scr/components/FinanceManager.tsx:56-69 | with non-negative amounts: day income <= month income <= year income <= all active income |
| Finance.CancelledPaymentLeavesIncome | scr/components/FinanceManager.tsx:59 | cancelling a payment lowers the window's income by its amount exactly when it was counted |
| Finance.FilteredPayments | scr/components/FinanceManager.tsx:92-94 | exactly the payments whose patient name contains the term case-insensitively, in order, every copy of a repeated record kept |
| Finance.LastTreatmentDate | scr/components/FinanceManager.tsx:35-36 | the date of the patient's newest treatment, or createdAt when there is none |
| Finance.LastTreatmentFacts | scr/components/FinanceManager.tsx:35-36 | the head of the newest-first list is that newest treatment |
| Finance.Enrich | scr/components/FinanceManager.tsx:34-41 | one entry per debtor, same patient and debt, with its last treatment date |
| Finance.TotalDebtOfDebtors | scr/components/FinanceManager.tsx:47 | the total debt is non-negative, and positive iff some patient owes money |
| Finance.SomeoneInDebt | scr/components/FinanceManager.tsx:34 | the debtor list is non-empty iff some patient has positive debt |
| Finance.TotalOfPositiveDebts | scr/components/FinanceManager.tsx:47 | a sum of positive debts is positive iff the list is non-empty |
| Finance.ProcessedDebtors | scr/components/FinanceManager.tsx:97-111 | a permutation of the matching debtors, in the chosen mode's order |
| Finance.SortedInModeOrder | scr/components/FinanceManager.tsx:103-111 | highest: non-increasing debt; lowest: non-decreasing debt; newest/oldest: descending/ascending last treatment date |
| Finance.EmptyTermKeepsAll | scr/components/FinanceManager.tsx:97-102 | an empty search term keeps every debtor |
| Finance.DebtorFoundByOwnDni | scr/components/FinanceManager.tsx:101 | searching for a debtor's dni finds that debtor |
| IntegralAttention.Upsert | components/IntegralAttentionModal.tsx:146-149 | the tooth is present; a tooth with that number is replaced at its index with the length kept, otherwise it is appended; every other entry is unchanged |
| IntegralAttention.UpsertFound | components/IntegralAttentionModal.tsx:146-149 | looking the number up afterwards finds exactly the saved tooth |
| IntegralAttention.UpsertKeepsOthers | components/IntegralAttentionModal.tsx:146-149 | the lookup of every other number is unchanged |
| IntegralAttention.UpsertKeepsUnique | components/IntegralAttentionModal.tsx:146-149 | unique tooth numbers stay unique |
| IntegralAttention.UpsertIdempotent | components/IntegralAttentionModal.tsx:146-149 | saving the same tooth twice equals saving it once |
| IntegralAttention.UpsertNumbers | components/IntegralAttentionModal.tsx:146-149 | the tooth numbers afterwards are those before plus the saved one |
| IntegralAttention.TeethCost | components/IntegralAttentionModal.tsx:43 | costoPiezas is 0 for an empty odontogram and, with no negative price, at least the price of every tooth |
| IntegralAttention.TeethCostAfterUpsert | components/IntegralAttentionModal.tsx:43 | saving a tooth changes costoPiezas by its price minus the price of the tooth it replaces |
| IntegralAttention.TeethCostNonNegative | components/IntegralAttentionModal.tsx:43 | with non-negative prices costoPiezas is non-negative |
| IntegralAttention.ProcedureCost | components/IntegralAttentionModal.tsx:42 | the price of the first catalog entry with that name, 0 when there is none |
| IntegralAttention.ToothLabels | components/IntegralAttentionModal.tsx:63 | one `numero(estado)` label per tooth, in odontogram order |
| IntegralAttention.HandleSave | components/IntegralAttentionModal.tsx:56-77 | nothing for an empty procedure; otherwise a Completado treatment at the current time costing procedure plus teeth, the description `notes | Piezas: ` followed by the tooth labels joined with `, `, the typed payment, and a follow-up iff scheduled |
| IntegralAttention.SavedVisitRecordsPayment | components/IntegralAttentionModal.tsx:70-73 | the store records the form's payment iff the typed amount is positive |
| IntegralAttention.ProjectAsWritten | components/IntegralAttentionModal.tsx:41-45 | the panel as written: newDebt is procedure cost plus teeth cost minus the typed amount, whatever its sign, finalBalance is currentDebt plus newDebt; a negative amount makes newDebt exceed the visit's cost |
| IntegralAttention.Project | components/IntegralAttentionModal.tsx:41-45 | the corrected panel: the typed amount is subtracted only when positive, so newDebt never exceeds the visit's cost; finalBalance is currentDebt plus newDebt |
| IntegralAttention.ProjectionMatchesSavedDebt | components/IntegralAttentionModal.tsx:41-45 | the corrected projected final balance equals the patient's debt after the older store saves the visit |
| IntegralAttention.AsWrittenAgreesWithoutNegativePayment | components/IntegralAttentionModal.tsx:44 | for a non-negative typed amount the form's projection is the corrected one |
| IntegralAttention.AsWrittenOverstatesNegativePayment | components/IntegralAttentionModal.tsx:44-45 | for a negative typed amount the form's projection exceeds the saved debt by that amount |

## Left out

- Persistence: `localStorage`, `save()`, JSON parsing, `saveLogo` and `getLogo` are I/O. The newer constructor takes the parsed snapshot as an `Option<Saved>` and the demo collections as a `Seed`. The older constructor takes its collections directly; its load-or-seed fallback is the same rule as the newer one's.
- Id generation: `Math.random().toString(36)` is nondeterministic, so ids are parameters. The model does not assume they are fresh, because the source does not check.
- Clock and dates: `new Date()`, `toISOString`, `toDateString`, `getDay` and the browser's time zone. The current time is a parameter. The calendar is a caller-supplied function, from a timestamp to a day number or to a (year, month, day) triple. `Weekday` assumes day 0 is a Thursday (1970-01-01).
- Floating point: costs, prices and amounts are JavaScript numbers read with `parseFloat`. The model uses `int`, and `parseFloat(x) \|\| 0` becomes an `Option<int>` whose missing value counts as 0. NaN does not arise.
- Getters that only return a copy are not modelled. These are `getUsers`, `getReminders`, `getPatients`, `getProcedures`, `getConsultationReasons` and `getFinancialGoal`.
- The older store's `login`, `addUser`, `updateUser`, `addReminder`, `deleteReminder`, `addPatient`, `searchPatients` and date-sorted getters are line for line the newer store's. They are modelled once, in `ClinicStore.LocalDatabase`.
- `toggleReminder` mutates the reminder object that `find` returns. The model replaces that element. Aliasing does not arise, because no other reference to it is modelled.
- Patients carry the fields both store versions share. The demographic fields (gender, birth date, phone and others) are merged by the same spread rule and are left out.
- The sorts are specified as sorted permutations. Stability, meaning the order among equal keys, is not stated.
- Lower-casing covers ASCII and Latin-1 letters only. JavaScript's full Unicode `toLowerCase` is not modelled.
- The React UI is not modelled. This covers rendering, modals, navigation and the React state setters. The tooth dialog's price table (`PRECIOS[estado]`) is not part of this model, so a tooth's price is part of the saved tooth.
- IntegralAttention.HandleSave: the follow-up's date is a timestamp parameter, not parsed from the date and time strings. `nextType` is taken as an appointment type, not cast from `any`.
- The `default` branch of the debtor sort is unreachable, because the sort mode is one of the four named modes.

## Findings

| source | as written | input that shows it | evidently intended | confidence | as-written member | corrected member |
|---|---|---|---|---|---|---|
| scr/services/db.ts:269-276 | the query is lower-cased, but it is compared with the dni as stored (`p.dni.includes(q)`); the older store does the same at services/db.ts:169 | a patient with dni `8493021 LP`, searched for by `8493021 LP`, is not found | the dni is lower-cased like the names, so that a patient's own dni finds them | medium, not executed | Views.SearchAsWrittenMissesDniWithLetters | Views.QueryOfOwnFieldMatches |
| components/IntegralAttentionModal.tsx:44-45 | the projection subtracts whatever amount is typed, a negative one included; `saveIntegralVisit` records only a positive amount (services/db.ts:285) | visit cost 100, current debt 0, amount `-50`: the panel projects 150, the saved debt is 100 | the projection subtracts only an amount that the store will record | low, not executed | IntegralAttention.AsWrittenOverstatesNegativePayment | IntegralAttention.ProjectionMatchesSavedDebt |

In both rows the search and the projection as written are also modelled:

- `Views.SearchPatientsAsWritten`;
- `IntegralAttention.ProjectAsWritten`.

The store class keeps the search as written; the corrected `Views.SearchPatients` states the intended behaviour beside it. The form's balance panel as written is `IntegralAttention.ProjectAsWritten`; the corrected `IntegralAttention.Project` states the intended projection beside it.
