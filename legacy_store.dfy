/**
 * The older clinic store (services/db.ts). Its payments carry no status, so
 * every payment counts towards a patient's balance and towards the income; it
 * also reports the income of the last seven days.
 */
module LegacyStore {
  import opened Wrappers
  import opened Records
  import opened Seqs
  import opened Sorting
  import Ledger
  import Views
  import ClinicStore

  datatype Payment = Payment(
    id: Id, patientId: Id, patientName: string, amount: int, date: Timestamp, via: PaymentMethod, notes: string)

  /** `Omit<Payment, 'id'>` */
  datatype PaymentDraft = PaymentDraft(
    patientId: Id, patientName: string, amount: int, date: Timestamp, via: PaymentMethod, notes: string)

  function PaymentOf(d: PaymentDraft, id: Id): Payment
  {
    Payment(id, d.patientId, d.patientName, d.amount, d.date, d.via, d.notes)
  }

  function Amount(p: Payment): int { p.amount }

  function PaidBy(pid: Id): Payment -> bool
  {
    (p: Payment) => p.patientId == pid
  }

  // ---------------------------------------------------------------------------
  // Ledger

  /** Every payment of the patient, whatever it was for. */
  function TotalPaid(ps: seq<Payment>, pid: Id): int
  {
    SumOf(Filter(ps, PaidBy(pid)), Amount)
  }

  /** `getPatientBalance(patientId)` of the older store. */
  function PatientBalance(ts: seq<Treatment>, ps: seq<Payment>, pid: Id): (b: Ledger.Balance)
    ensures b.totalCost == Ledger.TotalCost(ts, pid) && b.totalPaid == TotalPaid(ps, pid)
    ensures b.debt == b.totalCost - b.totalPaid
  {
    var cost := Ledger.TotalCost(ts, pid);
    var paid := TotalPaid(ps, pid);
    Ledger.Balance(cost, paid, cost - paid)
  }

  function Debt(ts: seq<Treatment>, ps: seq<Payment>, pid: Id): int
  {
    PatientBalance(ts, ps, pid).debt
  }

  /** A patient with no records owes nothing and has paid nothing. */
  lemma UnknownPatientHasZeroBalance(ts: seq<Treatment>, ps: seq<Payment>, pid: Id)
    requires forall i :: 0 <= i < |ts| ==> ts[i].patientId != pid
    requires forall i :: 0 <= i < |ps| ==> ps[i].patientId != pid
    ensures PatientBalance(ts, ps, pid) == Ledger.Balance(0, 0, 0)
  {
  }

  /** A new payment lowers its own patient's debt by its amount, whatever the amount, and no one else's. */
  lemma AddPaymentEffect(ts: seq<Treatment>, ps: seq<Payment>, p: Payment, pid: Id)
    ensures Debt(ts, [p] + ps, pid) == Debt(ts, ps, pid) - (if p.patientId == pid then p.amount else 0)
  {
    SumFilterCons(p, ps, PaidBy(pid), Amount);
  }

  /** `getDebtors()` of the older store. */
  function DebtorsOf(patients: seq<Patient>, ts: seq<Treatment>, ps: seq<Payment>): (r: seq<Ledger.DebtorEntry>)
    ensures forall e :: e in r <==> e.patient in patients && e.debt == Debt(ts, ps, e.patient.id) && e.debt > 0
    ensures forall i, j :: 0 <= i < j < |r| ==> r[i].debt >= r[j].debt
    ensures multiset(r) == multiset(Filter(Ledger.DebtEntries(patients, DebtOf(ts, ps)), Ledger.HasPositiveDebt))
  {
    Ledger.DebtorsByExactly(patients, DebtOf(ts, ps));
    Ledger.DebtorsBy(patients, DebtOf(ts, ps))
  }

  /** The older store's debt as a function of the patient id. */
  function DebtOf(ts: seq<Treatment>, ps: seq<Payment>): Id -> int
  {
    pid => Debt(ts, ps, pid)
  }

  /** `getStats().income` of the older store: every payment's amount. */
  function Income(ps: seq<Payment>): int
  {
    SumOf(ps, Amount)
  }

  /** A new payment raises the income by its amount. */
  lemma IncomeOfNewPayment(ps: seq<Payment>, p: Payment)
    ensures Income([p] + ps) == Income(ps) + p.amount
  {
    assert ([p] + ps)[1..] == ps;
  }

  /** When no payment is negative the income is the sum of all patients' credits, so it is never negative. */
  lemma IncomeNonNegative(ps: seq<Payment>)
    requires forall i :: 0 <= i < |ps| ==> ps[i].amount >= 0
    ensures Income(ps) >= 0
  {
    forall p | p in ps ensures Amount(p) >= 0 {
    }
    SumNonNegative(ps, Amount);
  }

  function StatsOf(ps: seq<Payment>, patients: seq<Patient>, appointments: seq<Appointment>, dayOf: Timestamp -> int, today: int)
    : (s: ClinicStore.DashboardStats)
    ensures s.income == Income(ps) && s.patients == |patients|
    ensures s.todayApps == ClinicStore.StatsOf([], patients, appointments, dayOf, today).todayApps
  {
    var counts := ClinicStore.StatsOf([], patients, appointments, dayOf, today);
    ClinicStore.DashboardStats(Income(ps), |patients|, counts.todayApps)
  }

  // ---------------------------------------------------------------------------
  // Integral visit

  function VisitPaymentDraft(v: IntegralVisit): PaymentDraft
    requires v.payment.Some?
  {
    PaymentDraft(
      v.patient.id, FullName(v.patient), v.payment.value.amount, v.treatment.date,
      v.payment.value.via, VisitPaymentNotes(v))
  }

  /** The payments after `saveIntegralVisit`: one more, in front, when the visit carries a positive payment. */
  function PaymentsAfterVisit(ps: seq<Payment>, v: IntegralVisit, paymentId: Id): (r: seq<Payment>)
    ensures VisitRecordsPayment(v) ==> |r| == |ps| + 1 && r[1..] == ps
    ensures VisitRecordsPayment(v) ==> r[0].date == v.treatment.date && r[0].amount == v.payment.value.amount
                                       && r[0].patientId == v.patient.id
    ensures VisitRecordsPayment(v) ==> r[0] == PaymentOf(VisitPaymentDraft(v), paymentId)
    ensures !VisitRecordsPayment(v) ==> r == ps
  {
    if VisitRecordsPayment(v) then [PaymentOf(VisitPaymentDraft(v), paymentId)] + ps else ps
  }

  /** The ledger effect of one integral visit on each patient's debt. */
  lemma VisitDebtEffect(ts: seq<Treatment>, ps: seq<Payment>, v: IntegralVisit, treatmentId: Id, paymentId: Id, pid: Id)
    ensures Debt([TreatmentOf(VisitTreatmentDraft(v), treatmentId)] + ts, PaymentsAfterVisit(ps, v, paymentId), pid)
         == Debt(ts, ps, pid)
            + (if v.patient.id == pid && v.treatment.status != Planificado then v.treatment.cost else 0)
            - (if v.patient.id == pid && VisitRecordsPayment(v) then v.payment.value.amount else 0)
  {
    var t := TreatmentOf(VisitTreatmentDraft(v), treatmentId);
    SumFilterCons(t, ts, Ledger.ChargedTo(pid), Ledger.Cost);
    if VisitRecordsPayment(v) {
      AddPaymentEffect([t] + ts, ps, PaymentOf(VisitPaymentDraft(v), paymentId), pid);
    }
  }

  // ---------------------------------------------------------------------------
  // Daily income of the last week

  const DayNames: seq<string> := ["Dom", "Lun", "Mar", "Mie", "Jue", "Vie", "Sab"]

  /**
   * `getDay()` of a calendar day, counted in days since 1 January 1970 (a
   * Thursday); Dafny's `%` never goes negative, so days before 1970 work too.
   */
  function Weekday(day: int): (w: nat)
    ensures w < 7
  {
    (day + 4) % 7
  }

  /** Seven consecutive days fall on seven different weekdays. */
  lemma WeekHasEveryWeekday(first: int, j: int, k: int)
    requires 0 <= j < k < 7
    ensures Weekday(first + j) != Weekday(first + k)
  {
    var a := first + j + 4;
    var s := a % 7 + (k - j);
    if s < 7 {
      ModSeven(a / 7, s);
    } else {
      ModSeven(a / 7 + 1, s - 7);
    }
  }

  lemma ModSeven(q: int, s: int)
    requires 0 <= s < 7
    ensures (7 * q + s) % 7 == s
  {
  }

  datatype DailyIncome = DailyIncome(name: string, ingresos: int, pacientes: nat)

  function OnDay(dayOf: Timestamp -> int, day: int): Payment -> bool
  {
    (p: Payment) => dayOf(p.date) == day
  }

  /** `new Set(ps.map(p => p.patientId))`: the distinct patient ids among `ps`. */
  function PatientIds(ps: seq<Payment>): (r: set<Id>)
    ensures |r| <= |ps|
    ensures forall i :: 0 <= i < |ps| ==> ps[i].patientId in r
    decreases |ps|
  {
    if ps == [] then {} else {ps[0].patientId} + PatientIds(ps[1..])
  }

  /** Every id in the set belongs to one of the payments. */
  lemma {:induction false} PatientIdsArePayers(ps: seq<Payment>, id: Id)
    requires id in PatientIds(ps)
    ensures exists i :: 0 <= i < |ps| && ps[i].patientId == id
    decreases |ps|
  {
    if ps[0].patientId != id {
      PatientIdsArePayers(ps[1..], id);
      var i :| 0 <= i < |ps[1..]| && ps[1..][i].patientId == id;
      assert ps[i + 1].patientId == id;
    }
  }

  /**
   * The entry for one calendar day: its weekday's name, the sum of that day's
   * payments and the number of different patients who paid that day.
   */
  function IncomeOn(ps: seq<Payment>, dayOf: Timestamp -> int, day: int): DailyIncome
  {
    var daily := Filter(ps, OnDay(dayOf, day));
    DailyIncome(DayNames[Weekday(day)], SumOf(daily, Amount), |PatientIds(daily)|)
  }

  /** The ids of the patients with a payment on that day. */
  ghost function PayersOn(ps: seq<Payment>, dayOf: Timestamp -> int, day: int): set<Id>
  {
    set i | 0 <= i < |ps| && dayOf(ps[i].date) == day :: ps[i].patientId
  }

  /**
   * What a day's entry says: its weekday's name, the sum of the amounts paid that
   * day, and the number of different patients who paid that day, which is no
   * larger than the number of that day's payments and zero exactly when nobody
   * paid that day.
   */
  lemma IncomeOnMeaning(ps: seq<Payment>, dayOf: Timestamp -> int, day: int)
    ensures IncomeOn(ps, dayOf, day).name == DayNames[Weekday(day)]
    ensures IncomeOn(ps, dayOf, day).ingresos == SumOf(Filter(ps, OnDay(dayOf, day)), Amount)
    ensures IncomeOn(ps, dayOf, day).pacientes == |PayersOn(ps, dayOf, day)|
    ensures IncomeOn(ps, dayOf, day).pacientes <= |Filter(ps, OnDay(dayOf, day))|
    ensures IncomeOn(ps, dayOf, day).pacientes == 0 <==> forall i :: 0 <= i < |ps| ==> dayOf(ps[i].date) != day
  {
    var daily := Filter(ps, OnDay(dayOf, day));
    assert daily != [] ==> daily[0] in ps;
    DailyPayers(ps, dayOf, day);
  }

  /** The distinct payers among the day's payments are the patients who paid that day. */
  lemma DailyPayers(ps: seq<Payment>, dayOf: Timestamp -> int, day: int)
    ensures PatientIds(Filter(ps, OnDay(dayOf, day))) == PayersOn(ps, dayOf, day)
  {
    forall id
      ensures id in PatientIds(Filter(ps, OnDay(dayOf, day))) <==> id in PayersOn(ps, dayOf, day)
    {
      if id in PatientIds(Filter(ps, OnDay(dayOf, day))) {
        DailyPayerPaid(ps, dayOf, day, id);
      }
      if id in PayersOn(ps, dayOf, day) {
        PayerIsDailyPayer(ps, dayOf, day, id);
      }
    }
  }

  lemma DailyPayerPaid(ps: seq<Payment>, dayOf: Timestamp -> int, day: int, id: Id)
    requires id in PatientIds(Filter(ps, OnDay(dayOf, day)))
    ensures id in PayersOn(ps, dayOf, day)
  {
    var daily := Filter(ps, OnDay(dayOf, day));
    PatientIdsArePayers(daily, id);
    var k :| 0 <= k < |daily| && daily[k].patientId == id;
    assert daily[k] in ps && OnDay(dayOf, day)(daily[k]);
    var i :| 0 <= i < |ps| && ps[i] == daily[k];
    assert dayOf(ps[i].date) == day;
  }

  lemma PayerIsDailyPayer(ps: seq<Payment>, dayOf: Timestamp -> int, day: int, id: Id)
    requires id in PayersOn(ps, dayOf, day)
    ensures id in PatientIds(Filter(ps, OnDay(dayOf, day)))
  {
    var daily := Filter(ps, OnDay(dayOf, day));
    var i :| 0 <= i < |ps| && dayOf(ps[i].date) == day && ps[i].patientId == id;
    assert OnDay(dayOf, day)(ps[i]);
    assert ps[i] in daily;
    var k :| 0 <= k < |daily| && daily[k] == ps[i];
    assert daily[k].patientId == id;
  }

  /** Seven consecutive days' entries carry seven different day names. */
  lemma WeekNamesDistinct(days: seq<DailyIncome>, ps: seq<Payment>, dayOf: Timestamp -> int, first: int)
    requires |days| == 7 && forall k :: 0 <= k < 7 ==> days[k] == IncomeOn(ps, dayOf, first + k)
    ensures forall j, k :: 0 <= j < k < 7 ==> days[j].name != days[k].name
  {
    DayNamesDistinct();
    forall j, k | 0 <= j < k < 7 ensures days[j].name != days[k].name {
      IncomeOnMeaning(ps, dayOf, first + j);
      IncomeOnMeaning(ps, dayOf, first + k);
      WeekHasEveryWeekday(first, j, k);
    }
  }

  /** The seven day names are different words. */
  lemma DayNamesDistinct()
    ensures forall a, b :: 0 <= a < b < 7 ==> DayNames[a] != DayNames[b]
  {
  }

  /**
   * `getDailyIncomeStats()`: seven entries, oldest day first, the last one for
   * `today`. `dayOf` is the calendar day a timestamp falls on in the browser's
   * time zone, `today` the current one.
   */
  method DailyIncomeStats(ps: seq<Payment>, dayOf: Timestamp -> int, today: int) returns (days: seq<DailyIncome>)
    ensures |days| == 7
    ensures forall k :: 0 <= k < 7 ==> days[k] == IncomeOn(ps, dayOf, today - 6 + k)
  {
    days := [];
    var i := 6;
    while i >= 0
      invariant -1 <= i <= 6
      invariant |days| == 6 - i
      invariant forall k :: 0 <= k < |days| ==> days[k] == IncomeOn(ps, dayOf, today - 6 + k)
    {
      var day := today - i;
      assert day == today - 6 + |days|;
      var entry := IncomeOn(ps, dayOf, day);
      days := days + [entry];
      i := i - 1;
    }
  }

  // ---------------------------------------------------------------------------
  // The store

  class LegacyDatabase {
    var users: seq<User>
    var patients: seq<Patient>
    var appointments: seq<Appointment>
    var treatments: seq<Treatment>
    var payments: seq<Payment>
    var reminders: seq<Reminder>
    var financialGoal: int

    /** A store over the given collections (what the constructor restores or seeds). */
    constructor (users: seq<User>, patients: seq<Patient>, appointments: seq<Appointment>,
                 treatments: seq<Treatment>, payments: seq<Payment>, reminders: seq<Reminder>, financialGoal: int)
      ensures this.users == users && this.patients == patients && this.appointments == appointments
      ensures this.treatments == treatments && this.payments == payments && this.reminders == reminders
      ensures this.financialGoal == financialGoal
    {
      this.users := users;
      this.patients := patients;
      this.appointments := appointments;
      this.treatments := treatments;
      this.payments := payments;
      this.reminders := reminders;
      this.financialGoal := financialGoal;
    }

    method DeleteUser(id: Id)
      modifies this`users
      ensures users == Filter(old(users), ClinicStore.NotUser(id))
      ensures forall i :: 0 <= i < |users| ==> users[i].id != id
      ensures IsSubsequence(users, old(users))
      ensures forall i :: 0 <= i < |old(users)| && old(users)[i].id != id ==> old(users)[i] in users
    {
      FilterIsSubsequence(users, ClinicStore.NotUser(id));
      users := Filter(users, ClinicStore.NotUser(id));
    }

    method ToggleReminder(id: Id)
      modifies this`reminders
      ensures reminders == ClinicStore.Toggled(old(reminders), id)
    {
      reminders := UpdateFirst(reminders, ClinicStore.ReminderWithId(id), ClinicStore.FlipCompleted);
    }

    /** `updatePatient`: the first patient with that id takes the patch's fields; nobody else changes. */
    method UpdatePatient(id: Id, data: PatientPatch)
      modifies this`patients
      ensures patients == UpdateFirst(old(patients), PatientWithId(id), ClinicStore.PatchPatient(data))
      ensures FirstIndex(old(patients), PatientWithId(id)).None? ==> patients == old(patients)
      ensures forall j :: 0 <= j < |patients| && FirstIndex(old(patients), PatientWithId(id)) != Some(j) ==>
                patients[j] == old(patients)[j]
    {
      patients := UpdateFirst(patients, PatientWithId(id), ClinicStore.PatchPatient(data));
    }

    method AddAppointment(d: AppointmentDraft, id: Id) returns (a: Appointment)
      modifies this`appointments
      ensures a == AppointmentOf(d, id)
      ensures appointments == old(appointments) + [a]
    {
      a := AppointmentOf(d, id);
      appointments := appointments + [a];
    }

    method AddTreatment(d: TreatmentDraft, id: Id) returns (t: Treatment)
      modifies this`treatments
      ensures t == TreatmentOf(d, id)
      ensures treatments == [t] + old(treatments)
    {
      t := TreatmentOf(d, id);
      treatments := [t] + treatments;
    }

    /** `addPayment`: the payment as given, in front of the list. */
    method AddPayment(d: PaymentDraft, id: Id) returns (p: Payment)
      modifies this`payments
      ensures p == PaymentOf(d, id)
      ensures payments == [p] + old(payments)
      ensures Debt(treatments, payments, d.patientId) == Debt(treatments, old(payments), d.patientId) - d.amount
      ensures Income(payments) == Income(old(payments)) + d.amount
    {
      p := PaymentOf(d, id);
      AddPaymentEffect(treatments, payments, p, d.patientId);
      IncomeOfNewPayment(payments, p);
      payments := [p] + payments;
    }

    function Balance(pid: Id): (b: Ledger.Balance)
      reads this
      ensures b == PatientBalance(treatments, payments, pid)
    {
      PatientBalance(treatments, payments, pid)
    }

    function Debtors(): (r: seq<Ledger.DebtorEntry>)
      reads this
      ensures r == DebtorsOf(patients, treatments, payments)
    {
      DebtorsOf(patients, treatments, payments)
    }

    /** `saveIntegralVisit` of the older store: the same records as the newer one, payments without status. */
    method SaveIntegralVisit(v: IntegralVisit, treatmentId: Id, paymentId: Id, appointmentId: Id)
      modifies this`treatments, this`payments, this`appointments
      ensures treatments == [TreatmentOf(VisitTreatmentDraft(v), treatmentId)] + old(treatments)
      ensures payments == PaymentsAfterVisit(old(payments), v, paymentId)
      ensures v.nextAppointment.Some? ==>
                appointments == old(appointments) + [AppointmentOf(VisitAppointmentDraft(v), appointmentId)]
      ensures v.nextAppointment.None? ==> appointments == old(appointments)
      ensures forall pid :: Debt(treatments, payments, pid)
                == Debt(old(treatments), old(payments), pid)
                   + (if v.patient.id == pid && v.treatment.status != Planificado then v.treatment.cost else 0)
                   - (if v.patient.id == pid && VisitRecordsPayment(v) then v.payment.value.amount else 0)
    {
      var _ := AddTreatment(VisitTreatmentDraft(v), treatmentId);
      if v.payment.Some? && v.payment.value.amount > 0 {
        var _ := AddPayment(VisitPaymentDraft(v), paymentId);
      }
      if v.nextAppointment.Some? {
        var _ := AddAppointment(VisitAppointmentDraft(v), appointmentId);
      }
      forall pid
        ensures Debt(treatments, payments, pid)
                == Debt(old(treatments), old(payments), pid)
                   + (if v.patient.id == pid && v.treatment.status != Planificado then v.treatment.cost else 0)
                   - (if v.patient.id == pid && VisitRecordsPayment(v) then v.payment.value.amount else 0)
      {
        VisitDebtEffect(old(treatments), old(payments), v, treatmentId, paymentId, pid);
      }
    }

    function Stats(dayOf: Timestamp -> int, today: int): (s: ClinicStore.DashboardStats)
      reads this
      ensures s == StatsOf(payments, patients, appointments, dayOf, today)
    {
      StatsOf(payments, patients, appointments, dayOf, today)
    }

    method RecentTreatedPatients() returns (r: seq<Views.RecentEntry>)
      ensures Views.IsRecentTreatedView(treatments, patients, r)
    {
      r := Views.RecentTreatedPatients(treatments, patients);
    }

    method DailyIncome(dayOf: Timestamp -> int, today: int) returns (days: seq<DailyIncome>)
      ensures |days| == 7
      ensures forall k :: 0 <= k < 7 ==> days[k] == IncomeOn(payments, dayOf, today - 6 + k)
    {
      days := DailyIncomeStats(payments, dayOf, today);
    }
  }
}
