/**
 * The record shapes the clinic store keeps. Dates are timestamps (milliseconds),
 * money is an integer number of bolivianos, ids are the strings the store
 * generates. Payments live in the two store modules, because the two store
 * versions disagree on whether a payment has a status.
 */
module Records {
  import opened Wrappers

  type Id = string
  type Timestamp = int

  datatype TreatmentStatus = Planificado | EnProceso | Completado
  datatype PaymentMethod = Efectivo | QR | Tarjeta | Transferencia
  datatype AppointmentType = Consulta | Tratamiento | Revision | Emergencia
  datatype AppointmentStatus = Pendiente | Completada | Cancelada

  /** Principal, Doctor and Staff are the roles of the newer store; Owner and Secretary those of the older one. */
  datatype UserRole = Principal | Doctor | Staff | Owner | Secretary

  datatype User = User(
    id: Id, username: string, name: string, role: UserRole,
    password: Option<string>, lastAccess: Timestamp)

  /** `Partial<User>`: the fields an update overwrites. */
  datatype UserPatch = UserPatch(
    id: Option<Id>, username: Option<string>, name: Option<string>, role: Option<UserRole>,
    password: Option<string>, lastAccess: Option<Timestamp>)

  /** `{ ...u, ...data }` */
  function ApplyUserPatch(u: User, data: UserPatch): User
  {
    User(
      data.id.GetOr(u.id), data.username.GetOr(u.username), data.name.GetOr(u.name),
      data.role.GetOr(u.role), if data.password.Some? then data.password else u.password,
      data.lastAccess.GetOr(u.lastAccess))
  }

  /** `Omit<User, 'id' | 'lastAccess'>` */
  datatype UserDraft = UserDraft(username: string, name: string, role: UserRole, password: Option<string>)

  datatype Reminder = Reminder(
    id: Id, text: string, completed: bool, createdAt: Timestamp, createdBy: string, createdById: Id)

  datatype Patient = Patient(
    id: Id, firstName: string, lastName: string, dni: string, allergies: string,
    generalDescription: string, medicalHistory: seq<string>, createdAt: Timestamp)

  /** `Omit<Patient, 'id' | 'createdAt'>` */
  datatype PatientDraft = PatientDraft(
    firstName: string, lastName: string, dni: string, allergies: string,
    generalDescription: string, medicalHistory: seq<string>)

  /** `Partial<Patient>`: the fields an update overwrites. */
  datatype PatientPatch = PatientPatch(
    id: Option<Id>, firstName: Option<string>, lastName: Option<string>, dni: Option<string>,
    allergies: Option<string>, generalDescription: Option<string>,
    medicalHistory: Option<seq<string>>, createdAt: Option<Timestamp>)

  /** `{ ...p, ...data }`: every field present in `data` wins, every other field is kept. */
  function ApplyPatientPatch(p: Patient, data: PatientPatch): Patient
  {
    Patient(
      data.id.GetOr(p.id), data.firstName.GetOr(p.firstName), data.lastName.GetOr(p.lastName),
      data.dni.GetOr(p.dni), data.allergies.GetOr(p.allergies),
      data.generalDescription.GetOr(p.generalDescription),
      data.medicalHistory.GetOr(p.medicalHistory), data.createdAt.GetOr(p.createdAt))
  }

  /** A patch leaves every field it does not name as it was. */
  lemma PatientPatchKeepsOtherFields(p: Patient, data: PatientPatch)
    ensures data.id.None? ==> ApplyPatientPatch(p, data).id == p.id
    ensures data.firstName.None? ==> ApplyPatientPatch(p, data).firstName == p.firstName
    ensures data.lastName.None? ==> ApplyPatientPatch(p, data).lastName == p.lastName
    ensures data.dni.None? ==> ApplyPatientPatch(p, data).dni == p.dni
    ensures data.allergies.None? ==> ApplyPatientPatch(p, data).allergies == p.allergies
    ensures data.generalDescription.None? ==> ApplyPatientPatch(p, data).generalDescription == p.generalDescription
    ensures data.medicalHistory.None? ==> ApplyPatientPatch(p, data).medicalHistory == p.medicalHistory
    ensures data.createdAt.None? ==> ApplyPatientPatch(p, data).createdAt == p.createdAt
    ensures data == PatientPatch(None, None, None, None, None, None, None, None) ==> ApplyPatientPatch(p, data) == p
  {
  }

  /** A field the patch carries takes the patch's value. */
  lemma PatientPatchOverwritesPresentFields(p: Patient, data: PatientPatch)
    ensures data.id.Some? ==> ApplyPatientPatch(p, data).id == data.id.value
    ensures data.firstName.Some? ==> ApplyPatientPatch(p, data).firstName == data.firstName.value
    ensures data.lastName.Some? ==> ApplyPatientPatch(p, data).lastName == data.lastName.value
    ensures data.dni.Some? ==> ApplyPatientPatch(p, data).dni == data.dni.value
    ensures data.allergies.Some? ==> ApplyPatientPatch(p, data).allergies == data.allergies.value
    ensures data.generalDescription.Some? ==> ApplyPatientPatch(p, data).generalDescription == data.generalDescription.value
    ensures data.medicalHistory.Some? ==> ApplyPatientPatch(p, data).medicalHistory == data.medicalHistory.value
    ensures data.createdAt.Some? ==> ApplyPatientPatch(p, data).createdAt == data.createdAt.value
  {
  }

  /** Applying the same patch twice is applying it once. */
  lemma PatientPatchIdempotent(p: Patient, data: PatientPatch)
    ensures ApplyPatientPatch(ApplyPatientPatch(p, data), data) == ApplyPatientPatch(p, data)
  {
  }

  function PatientWithId(id: Id): Patient -> bool
  {
    (p: Patient) => p.id == id
  }

  /** The patient name the store copies onto every record: `${firstName} ${lastName}`. */
  function FullName(p: Patient): string
  {
    p.firstName + " " + p.lastName
  }

  datatype Treatment = Treatment(
    id: Id, patientId: Id, patientName: string, procedure: string, description: string,
    cost: int, status: TreatmentStatus, date: Timestamp)

  function TreatmentOfPatient(pid: Id): Treatment -> bool
  {
    (t: Treatment) => t.patientId == pid
  }

  /** The comparator `(a, b) => b.date - a.date` as a sort key: newest first. */
  function NewestTreatmentFirst(t: Treatment): int { -t.date }

  /** `Omit<Treatment, 'id'>` */
  datatype TreatmentDraft = TreatmentDraft(
    patientId: Id, patientName: string, procedure: string, description: string,
    cost: int, status: TreatmentStatus, date: Timestamp)

  function TreatmentOf(d: TreatmentDraft, id: Id): Treatment
  {
    Treatment(id, d.patientId, d.patientName, d.procedure, d.description, d.cost, d.status, d.date)
  }

  datatype Appointment = Appointment(
    id: Id, patientId: Id, patientName: string, date: Timestamp,
    kind: AppointmentType, status: AppointmentStatus, notes: string)

  /** `Omit<Appointment, 'id'>` */
  datatype AppointmentDraft = AppointmentDraft(
    patientId: Id, patientName: string, date: Timestamp,
    kind: AppointmentType, status: AppointmentStatus, notes: string)

  function AppointmentOf(d: AppointmentDraft, id: Id): Appointment
  {
    Appointment(id, d.patientId, d.patientName, d.date, d.kind, d.status, d.notes)
  }

  datatype ProcedureItem = ProcedureItem(id: Id, name: string, price: int)

  /** The argument of `saveIntegralVisit`, shared by both store versions. */
  datatype VisitTreatment = VisitTreatment(
    procedure: string, description: string, cost: int, date: Timestamp, status: TreatmentStatus)
  datatype VisitPayment = VisitPayment(amount: int, via: PaymentMethod)
  datatype VisitAppointment = VisitAppointment(date: Timestamp, kind: AppointmentType, notes: string)
  datatype IntegralVisit = IntegralVisit(
    patient: Patient, treatment: VisitTreatment,
    payment: Option<VisitPayment>, nextAppointment: Option<VisitAppointment>)

  /** The treatment `saveIntegralVisit` adds: the visit's treatment, charged to its patient. */
  function VisitTreatmentDraft(v: IntegralVisit): TreatmentDraft
  {
    TreatmentDraft(
      v.patient.id, FullName(v.patient), v.treatment.procedure, v.treatment.description,
      v.treatment.cost, v.treatment.status, v.treatment.date)
  }

  /** The payment is recorded only when one is given and its amount is positive. */
  predicate VisitRecordsPayment(v: IntegralVisit)
  {
    v.payment.Some? && v.payment.value.amount > 0
  }

  /** The notes of the payment `saveIntegralVisit` records: `Pago por: ${procedure}`. */
  function VisitPaymentNotes(v: IntegralVisit): string
  {
    "Pago por: " + v.treatment.procedure
  }

  /** The follow-up appointment `saveIntegralVisit` adds, always pending. */
  function VisitAppointmentDraft(v: IntegralVisit): AppointmentDraft
    requires v.nextAppointment.Some?
  {
    AppointmentDraft(
      v.patient.id, FullName(v.patient), v.nextAppointment.value.date,
      v.nextAppointment.value.kind, Pendiente, v.nextAppointment.value.notes)
  }
}
