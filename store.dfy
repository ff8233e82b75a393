/**
 * The newer clinic store (scr/services/db.ts): one object holding every
 * collection of the clinic, updated in place by its operations. Persistence to
 * the browser's storage is not modelled; the state is the object's fields.
 */
module ClinicStore {
  import opened Wrappers
  import opened Records
  import opened Seqs
  import opened Sorting
  import opened Text
  import opened Ledger
  import Views

  // ---------------------------------------------------------------------------
  // Defaults a fresh store starts from

  const DefaultFinancialGoal: int := 3300

  const DefaultProcedures: seq<ProcedureItem> := [
    ProcedureItem("proc1", "Consulta General", 100),
    ProcedureItem("proc2", "Limpieza Dental", 250),
    ProcedureItem("proc3", "Endodoncia", 800),
    ProcedureItem("proc4", "Extracción Simple", 200),
    ProcedureItem("proc5", "Extracción Muela Juicio", 500),
    ProcedureItem("proc6", "Blanqueamiento", 600),
    ProcedureItem("proc7", "Ortodoncia (Mensualidad)", 350),
    ProcedureItem("proc8", "Prótesis", 1500),
    ProcedureItem("proc9", "Implante", 3500),
    ProcedureItem("proc10", "Curación", 150)
  ]

  const DefaultReasons: seq<string> := [
    "Revisión General", "Limpieza Dental", "Dolor de Muela", "Extracción",
    "Ortodoncia", "Blanqueamiento", "Prótesis", "Estética"
  ]

  /** The demonstration records a fresh store is seeded with (their dates depend on the clock). */
  datatype Seed = Seed(
    users: seq<User>, patients: seq<Patient>, appointments: seq<Appointment>,
    treatments: seq<Treatment>, payments: seq<Payment>, reminders: seq<Reminder>)

  /** What a previous session saved; a collection missing from it falls back to its default. */
  datatype Saved = Saved(
    users: Option<seq<User>>, patients: Option<seq<Patient>>, appointments: Option<seq<Appointment>>,
    treatments: Option<seq<Treatment>>, payments: Option<seq<Payment>>, reminders: Option<seq<Reminder>>,
    financialGoal: Option<int>, procedures: Option<seq<ProcedureItem>>, consultationReasons: Option<seq<string>>)

  /** `data.financialGoal || 3300`: a missing goal and a goal of zero both give the default. */
  function RestoredGoal(saved: Option<int>): (g: int)
    ensures g != 0
    ensures saved.Some? && saved.value != 0 ==> g == saved.value
    ensures saved.None? || saved.value == 0 ==> g == DefaultFinancialGoal
  {
    if saved.Some? && saved.value != 0 then saved.value else DefaultFinancialGoal
  }

  // ---------------------------------------------------------------------------
  // The list updates the store performs, as functions on the collections

  /** `addConsultationReason`: appended only when it is not there yet. */
  function WithReason(reasons: seq<string>, reason: string): (r: seq<string>)
    ensures reason in r
    ensures reason in reasons ==> r == reasons
    ensures reason !in reasons ==> r == reasons + [reason]
  {
    if reason in reasons then reasons else reasons + [reason]
  }

  function Other(reason: string): string -> bool
  {
    (x: string) => x != reason
  }

  /** `removeConsultationReason`: every copy goes, every other reason stays in order. */
  function WithoutReason(reasons: seq<string>, reason: string): (r: seq<string>)
    ensures reason !in r
    ensures forall i :: 0 <= i < |reasons| && reasons[i] != reason ==> reasons[i] in r
    ensures IsSubsequence(r, reasons)
  {
    FilterIsSubsequence(reasons, Other(reason));
    Filter(reasons, Other(reason))
  }

  /** Adding a reason twice is adding it once. */
  lemma WithReasonIdempotent(reasons: seq<string>, reason: string)
    ensures WithReason(WithReason(reasons, reason), reason) == WithReason(reasons, reason)
  {
  }

  /** Adding and removing reasons keeps the list free of repeats. */
  lemma ReasonsStayDistinct(reasons: seq<string>, reason: string)
    requires Distinct(reasons)
    ensures Distinct(WithReason(reasons, reason))
    ensures Distinct(WithoutReason(reasons, reason))
  {
    FilterDistinct(reasons, Other(reason));
  }

  function ReminderWithId(id: Id): Reminder -> bool
  {
    (r: Reminder) => r.id == id
  }

  function FlipCompleted(r: Reminder): Reminder
  {
    r.(completed := !r.completed)
  }

  /** `toggleReminder`: the first reminder with that id flips its completed flag. */
  function Toggled(reminders: seq<Reminder>, id: Id): (r: seq<Reminder>)
    ensures |r| == |reminders|
    ensures forall j :: 0 <= j < |r| ==> r[j].id == reminders[j].id
    ensures forall j :: 0 <= j < |r| && FirstIndex(reminders, ReminderWithId(id)) != Some(j) ==> r[j] == reminders[j]
    ensures FirstIndex(reminders, ReminderWithId(id)).Some? ==>
              var i := FirstIndex(reminders, ReminderWithId(id)).value;
              r[i] == reminders[i].(completed := !reminders[i].completed)
  {
    UpdateFirst(reminders, ReminderWithId(id), FlipCompleted)
  }

  /** Toggling a reminder twice leaves the reminders as they were. */
  lemma ToggleTwice(reminders: seq<Reminder>, id: Id)
    ensures Toggled(Toggled(reminders, id), id) == reminders
  {
    var once := Toggled(reminders, id);
    FirstIndexSameKeys(reminders, once, id);
    match FirstIndex(reminders, ReminderWithId(id))
    case None =>
    case Some(i) =>
      assert once == reminders[i := FlipCompleted(reminders[i])];
      assert Toggled(once, id) == once[i := FlipCompleted(once[i])];
  }

  lemma {:induction false} FirstIndexSameKeys(s: seq<Reminder>, t: seq<Reminder>, id: Id)
    requires |s| == |t| && forall j :: 0 <= j < |s| ==> s[j].id == t[j].id
    ensures FirstIndex(s, ReminderWithId(id)) == FirstIndex(t, ReminderWithId(id))
    decreases |s|
  {
    if s != [] {
      FirstIndexSameKeys(s[1..], t[1..], id);
    }
  }

  function UserWithId(id: Id): User -> bool { (u: User) => u.id == id }
  function UserNamed(username: string): User -> bool { (u: User) => u.username == username }
  function NotUser(id: Id): User -> bool { (u: User) => u.id != id }
  function PatchUser(data: UserPatch): User -> User { (u: User) => ApplyUserPatch(u, data) }
  function NotReminder(id: Id): Reminder -> bool { (r: Reminder) => r.id != id }
  function NotProcedure(id: Id): ProcedureItem -> bool { (p: ProcedureItem) => p.id != id }
  function PatchPatient(data: PatientPatch): Patient -> Patient { (p: Patient) => ApplyPatientPatch(p, data) }

  /** `(a, b) => a.date - b.date`: oldest first. */
  function AppointmentDate(a: Appointment): int { a.date }
  /** `(a, b) => b.date - a.date` on payments: newest first. */
  function PaymentNewestFirst(p: Payment): int { -p.date }
  function PaymentOfPatient(pid: Id): Payment -> bool { (p: Payment) => p.patientId == pid }

  /** `getStats()`: the active income, the patient count and the appointments on the given day. */
  datatype DashboardStats = DashboardStats(income: int, patients: nat, todayApps: nat)

  function OnDay(dayOf: Timestamp -> int, today: int): Appointment -> bool
  {
    (a: Appointment) => dayOf(a.date) == today
  }

  /**
   * The dashboard figures. `dayOf` is the calendar day a timestamp falls on in the
   * browser's time zone (`toDateString`), `today` the current one.
   */
  function StatsOf(ps: seq<Payment>, patients: seq<Patient>, appointments: seq<Appointment>, dayOf: Timestamp -> int, today: int)
    : (s: DashboardStats)
    ensures s.income == Income(ps) && s.patients == |patients|
    ensures s.todayApps <= |appointments|
    ensures s.todayApps == 0 <==> forall i :: 0 <= i < |appointments| ==> dayOf(appointments[i].date) != today
  {
    var todays := Filter(appointments, OnDay(dayOf, today));
    if todays == [] then
      DashboardStats(Income(ps), |patients|, 0)
    else
      assert todays[0] in appointments;
      DashboardStats(Income(ps), |patients|, |todays|)
  }

  // ---------------------------------------------------------------------------
  // The store

  class LocalDatabase {
    var users: seq<User>
    var patients: seq<Patient>
    var appointments: seq<Appointment>
    var treatments: seq<Treatment>
    var payments: seq<Payment>
    var reminders: seq<Reminder>
    var financialGoal: int
    var procedures: seq<ProcedureItem>
    var consultationReasons: seq<string>

    /** Restores what was saved, each missing collection from its default; with nothing saved, all defaults. */
    constructor (saved: Option<Saved>, seed: Seed)
      ensures saved.None? ==>
                users == seed.users && patients == seed.patients && appointments == seed.appointments
                && treatments == seed.treatments && payments == seed.payments && reminders == seed.reminders
                && financialGoal == DefaultFinancialGoal && procedures == DefaultProcedures
                && consultationReasons == DefaultReasons
      ensures saved.Some? ==>
                var d := saved.value;
                users == d.users.GetOr(seed.users) && patients == d.patients.GetOr(seed.patients)
                && appointments == d.appointments.GetOr(seed.appointments)
                && treatments == d.treatments.GetOr(seed.treatments) && payments == d.payments.GetOr(seed.payments)
                && reminders == d.reminders.GetOr(seed.reminders) && financialGoal == RestoredGoal(d.financialGoal)
                && procedures == d.procedures.GetOr(DefaultProcedures)
                && consultationReasons == d.consultationReasons.GetOr(DefaultReasons)
    {
      if saved.Some? {
        var d := saved.value;
        users := d.users.GetOr(seed.users);
        patients := d.patients.GetOr(seed.patients);
        appointments := d.appointments.GetOr(seed.appointments);
        treatments := d.treatments.GetOr(seed.treatments);
        payments := d.payments.GetOr(seed.payments);
        reminders := d.reminders.GetOr(seed.reminders);
        financialGoal := RestoredGoal(d.financialGoal);
        procedures := d.procedures.GetOr(DefaultProcedures);
        consultationReasons := d.consultationReasons.GetOr(DefaultReasons);
      } else {
        users := seed.users;
        patients := seed.patients;
        appointments := seed.appointments;
        treatments := seed.treatments;
        payments := seed.payments;
        reminders := seed.reminders;
        financialGoal := DefaultFinancialGoal;
        procedures := DefaultProcedures;
        consultationReasons := DefaultReasons;
      }
    }

    // --- System configuration

    method AddProcedure(name: string, price: int, id: Id)
      modifies this`procedures
      ensures procedures == old(procedures) + [ProcedureItem(id, name, price)]
    {
      procedures := procedures + [ProcedureItem(id, name, price)];
    }

    method RemoveProcedure(id: Id)
      modifies this`procedures
      ensures procedures == Filter(old(procedures), NotProcedure(id))
      ensures forall i :: 0 <= i < |procedures| ==> procedures[i].id != id
    {
      procedures := Filter(procedures, NotProcedure(id));
    }

    method AddConsultationReason(reason: string)
      modifies this`consultationReasons
      ensures consultationReasons == WithReason(old(consultationReasons), reason)
      ensures Distinct(old(consultationReasons)) ==> Distinct(consultationReasons)
    {
      if reason !in consultationReasons {
        consultationReasons := consultationReasons + [reason];
      }
      if Distinct(old(consultationReasons)) {
        ReasonsStayDistinct(old(consultationReasons), reason);
      }
    }

    method RemoveConsultationReason(reason: string)
      modifies this`consultationReasons
      ensures consultationReasons == WithoutReason(old(consultationReasons), reason)
      ensures Distinct(old(consultationReasons)) ==> Distinct(consultationReasons)
    {
      if Distinct(consultationReasons) {
        ReasonsStayDistinct(consultationReasons, reason);
      }
      consultationReasons := Filter(consultationReasons, Other(reason));
    }

    // --- Auth and users

    /**
     * `login`: the first user with that username, if its password matches, gets
     * its last access set to `now` and is returned; otherwise nothing changes.
     */
    method Login(username: string, password: string, now: Timestamp) returns (r: Option<User>)
      modifies this`users
      ensures var i := FirstIndex(old(users), UserNamed(username));
              if i.Some? && old(users)[i.value].password == Some(password) then
                users == old(users)[i.value := old(users)[i.value].(lastAccess := now)]
                && r == Some(users[i.value])
              else
                users == old(users) && r.None?
      ensures r.Some? ==> r.value.username == username && r.value.password == Some(password)
    {
      var i := FirstIndex(users, UserNamed(username));
      if i.Some? && users[i.value].password == Some(password) {
        users := users[i.value := users[i.value].(lastAccess := now)];
        r := Some(users[i.value]);
      } else {
        r := None;
      }
    }

    method AddUser(d: UserDraft, id: Id, now: Timestamp) returns (u: User)
      modifies this`users
      ensures u == User(id, d.username, d.name, d.role, d.password, now)
      ensures users == old(users) + [u]
    {
      u := User(id, d.username, d.name, d.role, d.password, now);
      users := users + [u];
    }

    method UpdateUser(id: Id, data: UserPatch)
      modifies this`users
      ensures users == UpdateFirst(old(users), UserWithId(id), PatchUser(data))
    {
      users := UpdateFirst(users, UserWithId(id), PatchUser(data));
    }

    method DeleteUser(id: Id)
      modifies this`users
      ensures users == Filter(old(users), NotUser(id))
      ensures forall i :: 0 <= i < |users| ==> users[i].id != id
    {
      users := Filter(users, NotUser(id));
    }

    // --- Reminders

    /** `addReminder`: a new open reminder, signed by `user`, in front of the list. */
    method AddReminder(text: string, user: User, id: Id, now: Timestamp) returns (r: Reminder)
      modifies this`reminders
      ensures r == Reminder(id, text, false, now, user.name, user.id)
      ensures reminders == [r] + old(reminders)
    {
      r := Reminder(id, text, false, now, user.name, user.id);
      reminders := [r] + reminders;
    }

    method ToggleReminder(id: Id)
      modifies this`reminders
      ensures reminders == Toggled(old(reminders), id)
    {
      reminders := UpdateFirst(reminders, ReminderWithId(id), FlipCompleted);
    }

    method DeleteReminder(id: Id)
      modifies this`reminders
      ensures reminders == Filter(old(reminders), NotReminder(id))
      ensures forall i :: 0 <= i < |reminders| ==> reminders[i].id != id
    {
      reminders := Filter(reminders, NotReminder(id));
    }

    // --- Patients

    /** `searchPatients`: the query is lowered, the dni is compared as stored. */
    function SearchPatients(query: string): (r: seq<Patient>)
      reads this
      ensures r == Views.SearchPatientsAsWritten(patients, query)
    {
      Views.SearchPatientsAsWritten(patients, query)
    }

    method AddPatient(d: PatientDraft, id: Id, now: Timestamp) returns (p: Patient)
      modifies this`patients
      ensures p == Patient(id, d.firstName, d.lastName, d.dni, d.allergies, d.generalDescription, d.medicalHistory, now)
      ensures patients == [p] + old(patients)
    {
      p := Patient(id, d.firstName, d.lastName, d.dni, d.allergies, d.generalDescription, d.medicalHistory, now);
      patients := [p] + patients;
    }

    method UpdatePatient(id: Id, data: PatientPatch)
      modifies this`patients
      ensures patients == UpdateFirst(old(patients), PatientWithId(id), PatchPatient(data))
    {
      patients := UpdateFirst(patients, PatientWithId(id), PatchPatient(data));
    }

    // --- Appointments, treatments and payments

    /** `getAppointments()`: every appointment, oldest first. */
    function Appointments(): (r: seq<Appointment>)
      reads this
      ensures SortedBy(r, AppointmentDate) && multiset(r) == multiset(appointments)
    {
      SortByKey(appointments, AppointmentDate)
    }

    method AddAppointment(d: AppointmentDraft, id: Id) returns (a: Appointment)
      modifies this`appointments
      ensures a == AppointmentOf(d, id)
      ensures appointments == old(appointments) + [a]
    {
      a := AppointmentOf(d, id);
      appointments := appointments + [a];
    }

    /** `getTreatments()`: every treatment, newest first. */
    function Treatments(): (r: seq<Treatment>)
      reads this
      ensures SortedBy(r, NewestTreatmentFirst) && multiset(r) == multiset(treatments)
    {
      SortByKey(treatments, NewestTreatmentFirst)
    }

    /** `getTreatmentsByPatient(pid)`: exactly that patient's treatments, newest first. */
    function TreatmentsByPatient(pid: Id): (r: seq<Treatment>)
      reads this
      ensures SortedBy(r, NewestTreatmentFirst)
      ensures multiset(r) == multiset(Filter(treatments, TreatmentOfPatient(pid)))
      ensures forall t :: t in r <==> t in treatments && t.patientId == pid
    {
      var mine := Filter(treatments, TreatmentOfPatient(pid));
      var r := SortByKey(mine, NewestTreatmentFirst);
      assert forall t :: t in r <==> t in multiset(mine);
      r
    }

    method AddTreatment(d: TreatmentDraft, id: Id) returns (t: Treatment)
      modifies this`treatments
      ensures t == TreatmentOf(d, id)
      ensures treatments == [t] + old(treatments)
    {
      t := TreatmentOf(d, id);
      treatments := [t] + treatments;
    }

    /** `getPayments()`: every payment, newest first. */
    function Payments(): (r: seq<Payment>)
      reads this
      ensures SortedBy(r, PaymentNewestFirst) && multiset(r) == multiset(payments)
    {
      SortByKey(payments, PaymentNewestFirst)
    }

    /** `getPaymentsByPatient(pid)`: exactly that patient's payments, cancelled ones included, newest first. */
    function PaymentsByPatient(pid: Id): (r: seq<Payment>)
      reads this
      ensures SortedBy(r, PaymentNewestFirst)
      ensures multiset(r) == multiset(Filter(payments, PaymentOfPatient(pid)))
      ensures forall p :: p in r <==> p in payments && p.patientId == pid
    {
      var mine := Filter(payments, PaymentOfPatient(pid));
      var r := SortByKey(mine, PaymentNewestFirst);
      assert forall p :: p in r <==> p in multiset(mine);
      r
    }

    /** `addPayment`: the new payment, completed, in front of the list; its patient's debt drops by its amount. */
    method AddPayment(d: PaymentDraft, id: Id) returns (p: Payment)
      modifies this`payments
      ensures p == PaymentOf(d, id)
      ensures payments == [p] + old(payments)
      ensures Debt(treatments, payments, d.patientId) == Debt(treatments, old(payments), d.patientId) - d.amount
      ensures Income(payments) == Income(old(payments)) + d.amount
    {
      p := PaymentOf(d, id);
      AddPaymentEffect(treatments, payments, p, d.patientId);
      IncomeEffects(payments, p, id);
      payments := [p] + payments;
    }

    /** `cancelPayment`: the first payment with that id is marked cancelled and stops counting. */
    method CancelPayment(id: Id)
      modifies this`payments
      ensures payments == Ledger.CancelPayment(old(payments), id)
    {
      payments := Ledger.CancelPayment(payments, id);
    }

    /** `getPatientBalance(pid)`. */
    function Balance(pid: Id): (b: Ledger.Balance)
      reads this
      ensures b.debt == b.totalCost - b.totalPaid
      ensures b == PatientBalance(treatments, payments, pid)
    {
      PatientBalance(treatments, payments, pid)
    }

    /** `getDebtors()`. */
    function Debtors(): (r: seq<DebtorEntry>)
      reads this
      ensures forall i, j :: 0 <= i < j < |r| ==> r[i].debt >= r[j].debt
      ensures forall e :: e in r <==> e.patient in patients && e.debt == Debt(treatments, payments, e.patient.id) && e.debt > 0
    {
      DebtorsAreThePatientsInDebt(patients, treatments, payments);
      Ledger.Debtors(patients, treatments, payments)
    }

    // --- Integral visit

    /**
     * `saveIntegralVisit`: the treatment in front of the treatments, the payment (when
     * positive) in front of the payments, the follow-up (when asked for) at the end of
     * the appointments. Every patient's debt moves only by this visit's charge and credit.
     */
    method SaveIntegralVisit(v: IntegralVisit, treatmentId: Id, paymentId: Id, appointmentId: Id)
      modifies this`treatments, this`payments, this`appointments
      ensures treatments == [TreatmentOf(VisitTreatmentDraft(v), treatmentId)] + old(treatments)
      ensures payments == PaymentsAfterVisit(old(payments), v, paymentId)
      ensures v.nextAppointment.Some? ==>
                appointments == old(appointments) + [AppointmentOf(VisitAppointmentDraft(v), appointmentId)]
      ensures v.nextAppointment.None? ==> appointments == old(appointments)
      ensures forall pid :: Debt(treatments, payments, pid)
                == Debt(old(treatments), old(payments), pid)
                   + (if v.patient.id == pid && v.treatment.status != Planificado then v.treatment.cost else 0)
                   - (if v.patient.id == pid && VisitRecordsPayment(v) then v.payment.value.amount else 0)
    {
      var _ := AddTreatment(VisitTreatmentDraft(v), treatmentId);
      if v.payment.Some? && v.payment.value.amount > 0 {
        var _ := AddPayment(VisitPaymentDraft(v), paymentId);
      }
      if v.nextAppointment.Some? {
        var _ := AddAppointment(VisitAppointmentDraft(v), appointmentId);
      }
      forall pid
        ensures Debt(treatments, payments, pid)
                == Debt(old(treatments), old(payments), pid)
                   + (if v.patient.id == pid && v.treatment.status != Planificado then v.treatment.cost else 0)
                   - (if v.patient.id == pid && VisitRecordsPayment(v) then v.payment.value.amount else 0)
      {
        VisitDebtEffect(old(treatments), old(payments), v, treatmentId, paymentId, pid);
      }
    }

    // --- Dashboard

    method SetFinancialGoal(amount: int)
      modifies this`financialGoal
      ensures financialGoal == amount
    {
      financialGoal := amount;
    }

    /** `getStats()`, with the calendar day supplied by the caller. */
    function Stats(dayOf: Timestamp -> int, today: int): (s: DashboardStats)
      reads this
      ensures s == StatsOf(payments, patients, appointments, dayOf, today)
    {
      StatsOf(payments, patients, appointments, dayOf, today)
    }

    /** `getRecentTreatedPatients()`. */
    method RecentTreatedPatients() returns (r: seq<Views.RecentEntry>)
      ensures Views.IsRecentTreatedView(treatments, patients, r)
    {
      r := Views.RecentTreatedPatients(treatments, patients);
    }
  }
}
