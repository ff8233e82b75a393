/**
 * The patient ledger of the newer store (scr/services/db.ts): a patient's
 * balance is recomputed from the treatment and payment collections on every
 * read. Charges are the patient's treatments that are not merely planned,
 * credits the patient's payments that are not cancelled.
 */
module Ledger {
  import opened Wrappers
  import opened Records
  import opened Seqs
  import opened Sorting

  datatype PaymentStatus = Completed | Cancelled

  datatype Payment = Payment(
    id: Id, patientId: Id, patientName: string, amount: int, date: Timestamp,
    via: PaymentMethod, notes: string, status: PaymentStatus)

  /** `Omit<Payment, 'id' | 'status'>`: what a caller of `addPayment` supplies. */
  datatype PaymentDraft = PaymentDraft(
    patientId: Id, patientName: string, amount: int, date: Timestamp, via: PaymentMethod, notes: string)

  /** The payment `addPayment` stores: the caller's fields, the new id, status completed. */
  function PaymentOf(d: PaymentDraft, id: Id): Payment
  {
    Payment(id, d.patientId, d.patientName, d.amount, d.date, d.via, d.notes, Completed)
  }

  datatype Balance = Balance(totalCost: int, totalPaid: int, debt: int)

  /** The treatments charged to `pid`: that patient's, except those still `Planificado`. */
  function ChargedTo(pid: Id): Treatment -> bool
  {
    (t: Treatment) => t.patientId == pid && t.status != Planificado
  }

  /** The payments credited to `pid`: that patient's, except cancelled ones. */
  function CreditedTo(pid: Id): Payment -> bool
  {
    (p: Payment) => p.patientId == pid && p.status != Cancelled
  }

  function Cost(t: Treatment): int { t.cost }

  function Amount(p: Payment): int { p.amount }

  function TotalCost(ts: seq<Treatment>, pid: Id): int
  {
    SumOf(Filter(ts, ChargedTo(pid)), Cost)
  }

  function TotalPaid(ps: seq<Payment>, pid: Id): int
  {
    SumOf(Filter(ps, CreditedTo(pid)), Amount)
  }

  /** `getPatientBalance(patientId)`. */
  function PatientBalance(ts: seq<Treatment>, ps: seq<Payment>, pid: Id): (b: Balance)
    ensures b.totalCost == TotalCost(ts, pid) && b.totalPaid == TotalPaid(ps, pid)
    ensures b.debt == b.totalCost - b.totalPaid
  {
    var cost := TotalCost(ts, pid);
    var paid := TotalPaid(ps, pid);
    Balance(cost, paid, cost - paid)
  }

  function Debt(ts: seq<Treatment>, ps: seq<Payment>, pid: Id): int
  {
    PatientBalance(ts, ps, pid).debt
  }

  /** An id no record mentions has a zero balance. */
  lemma UnknownPatientHasZeroBalance(ts: seq<Treatment>, ps: seq<Payment>, pid: Id)
    requires forall i :: 0 <= i < |ts| ==> ts[i].patientId != pid
    requires forall i :: 0 <= i < |ps| ==> ps[i].patientId != pid
    ensures PatientBalance(ts, ps, pid) == Balance(0, 0, 0)
  {
  }

  /** With costs and amounts non-negative, the charge and credit totals are non-negative. */
  lemma TotalsNonNegative(ts: seq<Treatment>, ps: seq<Payment>, pid: Id)
    requires forall i :: 0 <= i < |ts| ==> ts[i].cost >= 0
    requires forall i :: 0 <= i < |ps| ==> ps[i].amount >= 0
    ensures PatientBalance(ts, ps, pid).totalCost >= 0 && PatientBalance(ts, ps, pid).totalPaid >= 0
  {
    var charged := Filter(ts, ChargedTo(pid));
    forall t | t in charged ensures Cost(t) >= 0 {
      assert t in ts;
    }
    SumNonNegative(charged, Cost);
    var credited := Filter(ps, CreditedTo(pid));
    forall p | p in credited ensures Amount(p) >= 0 {
      assert p in ps;
    }
    SumNonNegative(credited, Amount);
  }

  /**
   * Adding a treatment in front (`addTreatment`) raises the patient's charge by its
   * cost exactly when it is that patient's and not planned; other patients see no change.
   */
  lemma AddTreatmentEffect(ts: seq<Treatment>, ps: seq<Payment>, t: Treatment, pid: Id)
    ensures PatientBalance([t] + ts, ps, pid).totalCost
         == PatientBalance(ts, ps, pid).totalCost + (if t.patientId == pid && t.status != Planificado then t.cost else 0)
    ensures PatientBalance([t] + ts, ps, pid).totalPaid == PatientBalance(ts, ps, pid).totalPaid
  {
    SumFilterCons(t, ts, ChargedTo(pid), Cost);
  }

  /**
   * Adding a payment in front (`addPayment`) lowers the patient's debt by its amount
   * exactly when it is that patient's and not cancelled.
   */
  lemma AddPaymentEffect(ts: seq<Treatment>, ps: seq<Payment>, p: Payment, pid: Id)
    ensures PatientBalance(ts, [p] + ps, pid).debt
         == PatientBalance(ts, ps, pid).debt - (if p.patientId == pid && p.status != Cancelled then p.amount else 0)
    ensures PatientBalance(ts, [p] + ps, pid).totalCost == PatientBalance(ts, ps, pid).totalCost
  {
    SumFilterCons(p, ps, CreditedTo(pid), Amount);
  }

  /** Selects the records with a given id. */
  function PaymentWithId(id: Id): Payment -> bool
  {
    (p: Payment) => p.id == id
  }

  function MarkCancelled(p: Payment): Payment
  {
    p.(status := Cancelled)
  }

  /** `cancelPayment(id)`: the first payment with that id becomes cancelled; no match changes nothing. */
  function CancelPayment(ps: seq<Payment>, id: Id): (r: seq<Payment>)
    ensures |r| == |ps|
    ensures forall j :: 0 <= j < |ps| ==> r[j].id == ps[j].id && r[j].amount == ps[j].amount && r[j].patientId == ps[j].patientId
    ensures forall j :: 0 <= j < |ps| && FirstIndex(ps, PaymentWithId(id)) != Some(j) ==> r[j] == ps[j]
    ensures FirstIndex(ps, PaymentWithId(id)).Some? ==> r[FirstIndex(ps, PaymentWithId(id)).value].status == Cancelled
    ensures FirstIndex(ps, PaymentWithId(id)).Some? ==>
              r[FirstIndex(ps, PaymentWithId(id)).value] == ps[FirstIndex(ps, PaymentWithId(id)).value].(status := Cancelled)
  {
    UpdateFirst(ps, PaymentWithId(id), MarkCancelled)
  }

  /** Cancelling an unknown id, or a payment already cancelled, leaves the payments equal. */
  lemma CancelPaymentNoOp(ps: seq<Payment>, id: Id)
    requires FirstIndex(ps, PaymentWithId(id)).Some? ==> ps[FirstIndex(ps, PaymentWithId(id)).value].status == Cancelled
    ensures CancelPayment(ps, id) == ps
  {
    match FirstIndex(ps, PaymentWithId(id))
    case None =>
    case Some(i) =>
      assert MarkCancelled(ps[i]) == ps[i];
      assert CancelPayment(ps, id) == ps[i := ps[i]];
  }

  /** Cancelling twice is cancelling once. */
  lemma CancelPaymentIdempotent(ps: seq<Payment>, id: Id)
    ensures CancelPayment(CancelPayment(ps, id), id) == CancelPayment(ps, id)
  {
    var once := CancelPayment(ps, id);
    match FirstIndex(ps, PaymentWithId(id))
    case None =>
    case Some(i) =>
      assert once[i].id == id;
      assert forall j :: 0 <= j < i ==> once[j] == ps[j];
      assert FirstIndex(once, PaymentWithId(id)) == Some(i);
      CancelPaymentNoOp(once, id);
  }

  /**
   * Cancelling a completed payment of amount A that belongs to `pid` raises that
   * patient's debt by exactly A; every other patient's debt, the charges, and any
   * cancellation of an unknown or already-cancelled payment leave the balance as it was.
   */
  lemma CancelPaymentEffect(ts: seq<Treatment>, ps: seq<Payment>, id: Id, pid: Id)
    ensures PatientBalance(ts, CancelPayment(ps, id), pid).totalCost == PatientBalance(ts, ps, pid).totalCost
    ensures FirstIndex(ps, PaymentWithId(id)).None? ==>
              PatientBalance(ts, CancelPayment(ps, id), pid) == PatientBalance(ts, ps, pid)
    ensures FirstIndex(ps, PaymentWithId(id)).Some? ==>
              var p := ps[FirstIndex(ps, PaymentWithId(id)).value];
              PatientBalance(ts, CancelPayment(ps, id), pid).debt
              == PatientBalance(ts, ps, pid).debt + (if p.patientId == pid && p.status == Completed then p.amount else 0)
  {
    match FirstIndex(ps, PaymentWithId(id))
    case None =>
    case Some(i) =>
      assert CancelPayment(ps, id) == ps[i := MarkCancelled(ps[i])];
      SumFilterUpdate(ps, i, MarkCancelled(ps[i]), CreditedTo(pid), Amount);
  }

  function IsActive(p: Payment): bool { p.status != Cancelled }

  /** `getStats().income`: the amounts of all payments that are not cancelled. */
  function Income(ps: seq<Payment>): int
  {
    SumOf(Filter(ps, IsActive), Amount)
  }

  /** A new completed payment raises the income by its amount; cancelling one lowers it by its amount. */
  lemma IncomeEffects(ps: seq<Payment>, p: Payment, id: Id)
    ensures Income([p] + ps) == Income(ps) + (if p.status != Cancelled then p.amount else 0)
    ensures FirstIndex(ps, PaymentWithId(id)).Some? ==>
              var q := ps[FirstIndex(ps, PaymentWithId(id)).value];
              Income(CancelPayment(ps, id)) == Income(ps) - (if q.status == Completed then q.amount else 0)
    ensures FirstIndex(ps, PaymentWithId(id)).None? ==> Income(CancelPayment(ps, id)) == Income(ps)
  {
    SumFilterCons(p, ps, IsActive, Amount);
    match FirstIndex(ps, PaymentWithId(id))
    case None =>
    case Some(i) =>
      assert CancelPayment(ps, id) == ps[i := MarkCancelled(ps[i])];
      SumFilterUpdate(ps, i, MarkCancelled(ps[i]), IsActive, Amount);
  }

  // ---------------------------------------------------------------------------
  // Debtors

  datatype DebtorEntry = DebtorEntry(patient: Patient, debt: int)

  /** `patients.map(p => ({ patient: p, debt }))`. */
  function DebtEntries(patients: seq<Patient>, debt: Id -> int): (r: seq<DebtorEntry>)
    ensures |r| == |patients|
    ensures forall i :: 0 <= i < |r| ==> r[i] == DebtorEntry(patients[i], debt(patients[i].id))
  {
    seq(|patients|, i requires 0 <= i < |patients| => DebtorEntry(patients[i], debt(patients[i].id)))
  }

  function HasPositiveDebt(e: DebtorEntry): bool { e.debt > 0 }

  /** `b.debt - a.debt` as a comparator: ascending in the negated debt. */
  function DebtDescending(e: DebtorEntry): int { -e.debt }

  /**
   * `getDebtors()` for a given way of computing a patient's debt: every patient whose
   * debt is positive, paired with that debt, largest debt first.
   */
  function DebtorsBy(patients: seq<Patient>, debt: Id -> int): (r: seq<DebtorEntry>)
    ensures forall i :: 0 <= i < |r| ==>
              r[i].patient in patients && r[i].debt == debt(r[i].patient.id) && r[i].debt > 0
    ensures forall i :: 0 <= i < |patients| && debt(patients[i].id) > 0 ==>
              DebtorEntry(patients[i], debt(patients[i].id)) in r
    ensures forall i, j :: 0 <= i < j < |r| ==> r[i].debt >= r[j].debt
    ensures multiset(r) == multiset(Filter(DebtEntries(patients, debt), HasPositiveDebt))
  {
    var r := SortByKey(Filter(DebtEntries(patients, debt), HasPositiveDebt), DebtDescending);
    SortedDebtorFacts(patients, debt, r);
    r
  }

  lemma SortedDebtorFacts(patients: seq<Patient>, debt: Id -> int, r: seq<DebtorEntry>)
    requires r == SortByKey(Filter(DebtEntries(patients, debt), HasPositiveDebt), DebtDescending)
    ensures forall i :: 0 <= i < |r| ==>
              r[i].patient in patients && r[i].debt == debt(r[i].patient.id) && r[i].debt > 0
    ensures forall i :: 0 <= i < |patients| && debt(patients[i].id) > 0 ==>
              DebtorEntry(patients[i], debt(patients[i].id)) in r
    ensures forall i, j :: 0 <= i < j < |r| ==> r[i].debt >= r[j].debt
  {
    var entries := DebtEntries(patients, debt);
    var positive := Filter(entries, HasPositiveDebt);
    forall i | 0 <= i < |r|
      ensures r[i].patient in patients && r[i].debt == debt(r[i].patient.id) && r[i].debt > 0
    {
      assert r[i] in multiset(r);
      assert r[i] in positive;
      var k :| 0 <= k < |entries| && entries[k] == r[i];
      assert r[i].patient == patients[k];
    }
    forall i, j | 0 <= i < j < |r| ensures r[i].debt >= r[j].debt {
      assert DebtDescending(r[i]) <= DebtDescending(r[j]);
    }
    forall i | 0 <= i < |patients| && debt(patients[i].id) > 0
      ensures DebtorEntry(patients[i], debt(patients[i].id)) in r
    {
      assert HasPositiveDebt(entries[i]);
      assert entries[i] in positive;
      assert entries[i] in multiset(positive);
    }
  }

  /** As many debtors as there are patients with a positive debt. */
  lemma {:induction false} DebtorsCount(patients: seq<Patient>, debt: Id -> int)
    ensures |DebtorsBy(patients, debt)| == |Filter(patients, (p: Patient) => debt(p.id) > 0)|
    decreases |patients|
  {
    var r := DebtorsBy(patients, debt);
    assert |r| == |multiset(r)|;
    FilterMapCount(patients, debt);
  }

  lemma {:induction false} FilterMapCount(patients: seq<Patient>, debt: Id -> int)
    ensures |Filter(DebtEntries(patients, debt), HasPositiveDebt)| == |Filter(patients, (p: Patient) => debt(p.id) > 0)|
    decreases |patients|
  {
    if patients != [] {
      var entries := DebtEntries(patients, debt);
      assert entries[1..] == DebtEntries(patients[1..], debt);
      FilterMapCount(patients[1..], debt);
    }
  }

  /** `getDebtors()` of the newer store. */
  function Debtors(patients: seq<Patient>, ts: seq<Treatment>, ps: seq<Payment>): seq<DebtorEntry>
  {
    DebtorsBy(patients, pid => Debt(ts, ps, pid))
  }

  /** A debtor list holds exactly the patients with a positive debt, each with that debt. */
  lemma DebtorsByExactly(patients: seq<Patient>, debt: Id -> int)
    ensures forall e :: e in DebtorsBy(patients, debt) <==>
              e.patient in patients && e.debt == debt(e.patient.id) && e.debt > 0
  {
    var r := DebtorsBy(patients, debt);
    forall e ensures e in r <==> e.patient in patients && e.debt == debt(e.patient.id) && e.debt > 0 {
      if e.patient in patients && e.debt == debt(e.patient.id) && e.debt > 0 {
        var i :| 0 <= i < |patients| && patients[i] == e.patient;
        assert DebtorEntry(patients[i], debt(patients[i].id)) in r;
      }
    }
  }

  /**
   * The debtor list of the newer store: exactly the patients whose balance is a
   * positive debt, each with that debt, in non-increasing debt order.
   */
  lemma DebtorsAreThePatientsInDebt(patients: seq<Patient>, ts: seq<Treatment>, ps: seq<Payment>)
    ensures forall e :: e in Debtors(patients, ts, ps) <==>
              e.patient in patients && e.debt == Debt(ts, ps, e.patient.id) && e.debt > 0
    ensures forall i, j :: 0 <= i < j < |Debtors(patients, ts, ps)| ==>
              Debtors(patients, ts, ps)[i].debt >= Debtors(patients, ts, ps)[j].debt
  {
    DebtorsByExactly(patients, pid => Debt(ts, ps, pid));
  }

  // ---------------------------------------------------------------------------
  // Integral visit

  /** The payment `saveIntegralVisit` adds: dated like the treatment, noted with the procedure. */
  function VisitPaymentDraft(v: IntegralVisit): PaymentDraft
    requires v.payment.Some?
  {
    PaymentDraft(
      v.patient.id, FullName(v.patient), v.payment.value.amount, v.treatment.date,
      v.payment.value.via, VisitPaymentNotes(v))
  }

  /** The payments after `saveIntegralVisit`: one more, in front, when the visit carries a positive payment. */
  function PaymentsAfterVisit(ps: seq<Payment>, v: IntegralVisit, paymentId: Id): (r: seq<Payment>)
    ensures VisitRecordsPayment(v) ==> |r| == |ps| + 1 && r[1..] == ps
    ensures VisitRecordsPayment(v) ==> r[0].status == Completed && r[0].date == v.treatment.date
                                       && r[0].amount == v.payment.value.amount && r[0].patientId == v.patient.id
    ensures VisitRecordsPayment(v) ==> r[0] == PaymentOf(VisitPaymentDraft(v), paymentId)
    ensures !VisitRecordsPayment(v) ==> r == ps
  {
    if VisitRecordsPayment(v) then [PaymentOf(VisitPaymentDraft(v), paymentId)] + ps else ps
  }

  /**
   * The ledger effect of one integral visit: the patient's debt grows by the
   * treatment's cost (unless it is planned) and shrinks by the payment when one is
   * recorded; no other patient's balance moves.
   */
  lemma VisitDebtEffect(ts: seq<Treatment>, ps: seq<Payment>, v: IntegralVisit, treatmentId: Id, paymentId: Id, pid: Id)
    ensures Debt([TreatmentOf(VisitTreatmentDraft(v), treatmentId)] + ts, PaymentsAfterVisit(ps, v, paymentId), pid)
         == Debt(ts, ps, pid)
            + (if v.patient.id == pid && v.treatment.status != Planificado then v.treatment.cost else 0)
            - (if v.patient.id == pid && VisitRecordsPayment(v) then v.payment.value.amount else 0)
  {
    var t := TreatmentOf(VisitTreatmentDraft(v), treatmentId);
    AddTreatmentEffect(ts, ps, t, pid);
    if VisitRecordsPayment(v) {
      AddPaymentEffect([t] + ts, ps, PaymentOf(VisitPaymentDraft(v), paymentId), pid);
    }
  }
}

module LedgerExamples {
  import opened Records
  import opened Ledger
  import opened Seqs
  import opened Sorting

  /** Debts 300, 0, 150 and -20: only the first and third patients are debtors, largest first. */
  lemma DebtorsExample(a: Patient, b: Patient, c: Patient, d: Patient)
    requires a.id == "1" && b.id == "2" && c.id == "3" && d.id == "4"
    ensures DebtorsBy([a, b, c, d], pid => if pid == "1" then 300 else if pid == "3" then 150 else if pid == "4" then -20 else 0)
         == [DebtorEntry(a, 300), DebtorEntry(c, 150)]
  {
    var debt := (pid: Id) => if pid == "1" then 300 else if pid == "3" then 150 else if pid == "4" then -20 else 0;
    var entries := DebtEntries([a, b, c, d], debt);
    var x, y := DebtorEntry(a, 300), DebtorEntry(c, 150);
    var e4 := [DebtorEntry(d, -20)];
    var e3 := [y] + e4;
    var e2 := [DebtorEntry(b, 0)] + e3;
    assert entries == [x] + e2;
    assert e4[1..] == [] && e3[1..] == e4 && e2[1..] == e3 && ([x] + e2)[1..] == e2;
    assert Filter(e4, HasPositiveDebt) == [];
    assert Filter(e3, HasPositiveDebt) == [y];
    assert Filter(e2, HasPositiveDebt) == [y];
    assert Filter(entries, HasPositiveDebt) == [x, y];
    assert [x, y][1..] == [y] && [y][1..] == [];
    assert SortByKey([y], DebtDescending) == [y];
    assert SortByKey([x, y], DebtDescending) == Insert(x, [y], DebtDescending) == [x, y];
  }
}
