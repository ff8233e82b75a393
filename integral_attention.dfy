/**
 * The one-step visit form ("Atención Integral"): an odontogram the dentist
 * edits tooth by tooth, the cost of the visit (catalog price of the procedure
 * plus the price of every tooth), the projected balance shown before saving,
 * and the record bundle the form hands to the older store's
 * `saveIntegralVisit`.
 */
module IntegralAttention {
  import opened Wrappers
  import opened Records
  import opened Seqs
  import opened Text
  import LegacyStore

  datatype ToothState = Sano | Caries | Obturado | Corona | Extraccion | Puente | Rx | Ausente

  /** A tooth of the odontogram (`PiezaDental`): its FDI number, state, notes and price. */
  datatype Tooth = Tooth(numero: nat, estado: ToothState, notas: string, precio: int)

  /** The state as the form writes it into the treatment description. */
  function StateName(e: ToothState): string
  {
    match e
    case Sano => "sano"
    case Caries => "caries"
    case Obturado => "obturado"
    case Corona => "corona"
    case Extraccion => "extraccion"
    case Puente => "puente"
    case Rx => "rx"
    case Ausente => "ausente"
  }

  function SameNumber(n: nat): Tooth -> bool
  {
    (x: Tooth) => x.numero == n
  }

  predicate UniqueNumbers(o: seq<Tooth>)
  {
    forall i, j :: 0 <= i < j < |o| ==> o[i].numero != o[j].numero
  }

  function Numbers(o: seq<Tooth>): set<nat>
  {
    set t | t in o :: t.numero
  }

  // ---------------------------------------------------------------------------
  // Odontogram upsert
  // ---------------------------------------------------------------------------

  /**
   * Saving a tooth from the tooth dialog: the first entry with the same number
   * is replaced in place, otherwise the tooth is appended.
   */
  function Upsert(o: seq<Tooth>, p: Tooth): (r: seq<Tooth>)
    ensures p in r
    ensures FirstIndex(o, SameNumber(p.numero)).Some? ==>
              var i := FirstIndex(o, SameNumber(p.numero)).value;
              |r| == |o| && r[i] == p && forall j :: 0 <= j < |o| && j != i ==> r[j] == o[j]
    ensures FirstIndex(o, SameNumber(p.numero)).None? ==>
              |r| == |o| + 1 && r[|o|] == p && forall j :: 0 <= j < |o| ==> r[j] == o[j]
  {
    match FirstIndex(o, SameNumber(p.numero))
    case Some(i) => assert o[i := p][i] == p; o[i := p]
    case None => assert (o + [p])[|o|] == p; o + [p]
  }

  /** After an upsert, looking the tooth up by its number finds exactly the saved tooth. */
  lemma UpsertFound(o: seq<Tooth>, p: Tooth)
    ensures Find(Upsert(o, p), SameNumber(p.numero)) == Some(p)
  {
    var r := Upsert(o, p);
    var k := match FirstIndex(o, SameNumber(p.numero)) case Some(i) => i case None => |o|;
    assert k < |r| && r[k] == p;
    assert forall j :: 0 <= j < k ==> r[j] == o[j] && !SameNumber(p.numero)(o[j]);
    FirstIndexIs(r, SameNumber(p.numero), k);
  }

  /** An upsert leaves the lookup of every other tooth number as it was. */
  lemma UpsertKeepsOthers(o: seq<Tooth>, p: Tooth, n: nat)
    requires n != p.numero
    ensures Find(Upsert(o, p), SameNumber(n)) == Find(o, SameNumber(n))
  {
    var r := Upsert(o, p);
    forall j | 0 <= j < |r|
      ensures SameNumber(n)(r[j]) == (j < |o| && SameNumber(n)(o[j]))
    {
      if j == |o| || r[j] != o[j] {
        assert r[j] == p;
      }
    }
    match FirstIndex(o, SameNumber(n))
    case None =>
    case Some(m) =>
      FirstIndexIs(r, SameNumber(n), m);
  }

  /** When tooth numbers were unique, they stay unique. */
  lemma UpsertKeepsUnique(o: seq<Tooth>, p: Tooth)
    requires UniqueNumbers(o)
    ensures UniqueNumbers(Upsert(o, p))
  {
    var r := Upsert(o, p);
    match FirstIndex(o, SameNumber(p.numero))
    case Some(i) =>
      forall a, b | 0 <= a < b < |r|
        ensures r[a].numero != r[b].numero
      {
        if a == i {
          assert r[b] == o[b] && o[i].numero == p.numero;
        } else if b == i {
          assert r[a] == o[a] && o[i].numero == p.numero;
        } else {
          assert r[a] == o[a] && r[b] == o[b];
        }
      }
    case None =>
      forall a, b | 0 <= a < b < |r|
        ensures r[a].numero != r[b].numero
      {
        if b == |o| {
          assert r[a] == o[a] && !SameNumber(p.numero)(o[a]);
        } else {
          assert r[a] == o[a] && r[b] == o[b];
        }
      }
  }

  /** Saving the same tooth twice is the same as saving it once. */
  lemma UpsertIdempotent(o: seq<Tooth>, p: Tooth)
    ensures Upsert(Upsert(o, p), p) == Upsert(o, p)
  {
    var r := Upsert(o, p);
    UpsertFound(o, p);
    var k :| FirstIndex(r, SameNumber(p.numero)) == Some(k);
    assert r[k] == p;
    assert r[k := p] == r;
  }

  /** The tooth numbers after an upsert: those before, plus the saved one. */
  lemma UpsertNumbers(o: seq<Tooth>, p: Tooth)
    ensures Numbers(Upsert(o, p)) == Numbers(o) + {p.numero}
  {
    var r := Upsert(o, p);
    forall n | n in Numbers(r)
      ensures n in Numbers(o) + {p.numero}
    {
      var t :| t in r && t.numero == n;
      var j :| 0 <= j < |r| && r[j] == t;
      if j < |o| && r[j] == o[j] {
        assert o[j] in o;
      }
    }
    forall n | n in Numbers(o) + {p.numero}
      ensures n in Numbers(r)
    {
      if n != p.numero {
        var t :| t in o && t.numero == n;
        var j :| 0 <= j < |o| && o[j] == t;
        if FirstIndex(o, SameNumber(p.numero)).Some? {
          var i := FirstIndex(o, SameNumber(p.numero)).value;
          assert o[i].numero != n;
        }
        assert r[j] == o[j];
        assert r[j] in r;
      }
    }
  }

  // ---------------------------------------------------------------------------
  // Costs
  // ---------------------------------------------------------------------------

  function Precio(t: Tooth): int { t.precio }

  /**
   * `costoPiezas`: the sum of the tooth prices; nothing for an empty odontogram,
   * and, with no negative price, no less than the price of any one tooth.
   */
  function TeethCost(o: seq<Tooth>): (c: int)
    ensures o == [] ==> c == 0
    ensures (forall t :: t in o ==> t.precio >= 0) ==> forall i :: 0 <= i < |o| ==> o[i].precio <= c
  {
    if forall t :: t in o ==> t.precio >= 0 then
      SumAtLeastEach(o, Precio);
      SumOf(o, Precio)
    else
      SumOf(o, Precio)
  }

  /** Saving a tooth changes the odontogram's cost by the new price minus the price it replaces. */
  lemma TeethCostAfterUpsert(o: seq<Tooth>, p: Tooth)
    ensures TeethCost(Upsert(o, p))
         == TeethCost(o) - (match Find(o, SameNumber(p.numero)) case Some(old_) => old_.precio case None => 0)
            + p.precio
  {
    match FirstIndex(o, SameNumber(p.numero))
    case Some(i) =>
      SumUpdate(o, i, p, Precio);
    case None =>
      SumAppend(o, [p], Precio);
  }

  lemma TeethCostNonNegative(o: seq<Tooth>)
    requires forall t :: t in o ==> t.precio >= 0
    ensures TeethCost(o) >= 0
  {
    SumNonNegative(o, Precio);
  }

  function NamedProcedure(name: string): ProcedureItem -> bool
  {
    (item: ProcedureItem) => item.name == name
  }

  /** `costoProcedimiento`: the price of the first catalog entry with this name, 0 when there is none. */
  function ProcedureCost(catalog: seq<ProcedureItem>, procedure: string): (c: int)
    ensures (forall j :: 0 <= j < |catalog| ==> catalog[j].name != procedure) ==> c == 0
    ensures forall i :: 0 <= i < |catalog| && catalog[i].name == procedure
                        && (forall j :: 0 <= j < i ==> catalog[j].name != procedure)
                        ==> c == catalog[i].price
  {
    match Find(catalog, NamedProcedure(procedure))
    case Some(item) => item.price
    case None => 0
  }

  /** What the form is filled with when the dentist presses save. */
  datatype VisitForm = VisitForm(
    patient: Patient, procedure: string, description: string, odontogram: seq<Tooth>,
    paymentAmount: Option<int>, paymentMethod: PaymentMethod,
    scheduleNext: bool, nextDate: Timestamp, nextType: AppointmentType)

  /** `totalCost`, which an effect keeps equal to `costoProcedimiento + costoPiezas`. */
  function VisitCost(catalog: seq<ProcedureItem>, form: VisitForm): int
  {
    ProcedureCost(catalog, form.procedure) + TeethCost(form.odontogram)
  }

  /** `parseFloat(paymentAmount) || 0`: a blank or unreadable amount counts as 0. */
  function PaymentOrZero(amount: Option<int>): int
  {
    amount.GetOr(0)
  }

  /** The three figures of the balance panel. */
  datatype Projection = Projection(currentDebt: int, newDebt: int, finalBalance: int)

  // ---------------------------------------------------------------------------
  // The record bundle
  // ---------------------------------------------------------------------------

  /** `${p.numero}(${p.estado})` */
  function ToothLabel(t: Tooth): string
  {
    NatToString(t.numero) + "(" + StateName(t.estado) + ")"
  }

  /** One label per tooth, in odontogram order. */
  function ToothLabels(o: seq<Tooth>): (r: seq<string>)
    ensures |r| == |o|
    ensures forall i :: 0 <= i < |o| ==> r[i] == ToothLabel(o[i])
    decreases |o|
  {
    if o == [] then []
    else [ToothLabel(o[0])] + ToothLabels(o[1..])
  }

  /** `${description} | Piezas: 11(caries), 12(sano), ...` */
  function VisitDescription(form: VisitForm): string
  {
    form.description + " | Piezas: " + Join(ToothLabels(form.odontogram), ", ")
  }

  /**
   * `handleSave`: nothing when no procedure is entered; otherwise the visit
   * handed to the store, a completed treatment at the current time costing the
   * visit's total, the typed payment, and a follow-up only when requested.
   */
  function HandleSave(form: VisitForm, catalog: seq<ProcedureItem>, now: Timestamp): (r: Option<IntegralVisit>)
    ensures r.None? <==> form.procedure == ""
    ensures r.Some? ==> r.value.patient == form.patient
                        && r.value.treatment.procedure == form.procedure
                        && r.value.treatment.status == Completado
                        && r.value.treatment.cost == ProcedureCost(catalog, form.procedure) + TeethCost(form.odontogram)
                        && r.value.treatment.date == now
    ensures r.Some? ==> |r.value.treatment.description| >= |form.description|
                        && r.value.treatment.description[..|form.description|] == form.description
    ensures r.Some? ==> r.value.treatment.description == form.description + " | Piezas: " + Join(ToothLabels(form.odontogram), ", ")
    ensures r.Some? ==> r.value.payment == Some(VisitPayment(PaymentOrZero(form.paymentAmount), form.paymentMethod))
    ensures r.Some? ==> (r.value.nextAppointment.Some? <==> form.scheduleNext)
    ensures r.Some? && form.scheduleNext ==>
              r.value.nextAppointment.value.date == form.nextDate
              && r.value.nextAppointment.value.kind == form.nextType
              && r.value.nextAppointment.value.notes == "Seguimiento: " + form.procedure
  {
    if form.procedure == "" then None
    else
      Some(IntegralVisit(
        form.patient,
        VisitTreatment(form.procedure, VisitDescription(form), VisitCost(catalog, form), now, Completado),
        Some(VisitPayment(PaymentOrZero(form.paymentAmount), form.paymentMethod)),
        if form.scheduleNext
        then Some(VisitAppointment(form.nextDate, form.nextType, "Seguimiento: " + form.procedure))
        else None))
  }

  /** The store records the visit's payment exactly when the typed amount is positive. */
  lemma SavedVisitRecordsPayment(form: VisitForm, catalog: seq<ProcedureItem>, now: Timestamp)
    requires form.procedure != ""
    ensures VisitRecordsPayment(HandleSave(form, catalog, now).value) <==> PaymentOrZero(form.paymentAmount) > 0
  {
  }

  /** The patient's debt once the older store has saved the visit the form submits. */
  function DebtAfterSave(
    ts: seq<Treatment>, ps: seq<LegacyStore.Payment>, form: VisitForm, catalog: seq<ProcedureItem>,
    now: Timestamp, treatmentId: Id, paymentId: Id): int
    requires form.procedure != ""
  {
    var v := HandleSave(form, catalog, now).value;
    LegacyStore.Debt(
      [TreatmentOf(VisitTreatmentDraft(v), treatmentId)] + ts,
      LegacyStore.PaymentsAfterVisit(ps, v, paymentId), form.patient.id)
  }

  // ---------------------------------------------------------------------------
  // Balance projection
  // ---------------------------------------------------------------------------

  /** The projection as the form computes it: the typed payment is subtracted whatever its sign. */
  function ProjectAsWritten(currentDebt: int, catalog: seq<ProcedureItem>, form: VisitForm): (r: Projection)
    ensures r.currentDebt == currentDebt && r.finalBalance == currentDebt + r.newDebt
    ensures r.newDebt == ProcedureCost(catalog, form.procedure) + TeethCost(form.odontogram) - PaymentOrZero(form.paymentAmount)
    ensures PaymentOrZero(form.paymentAmount) < 0 ==> r.newDebt > VisitCost(catalog, form)
  {
    var newDebt := VisitCost(catalog, form) - PaymentOrZero(form.paymentAmount);
    Projection(currentDebt, newDebt, currentDebt + newDebt)
  }

  /** The projection with the store's rule applied: a payment that is not positive is not recorded. */
  function Project(currentDebt: int, catalog: seq<ProcedureItem>, form: VisitForm): (r: Projection)
    ensures r.currentDebt == currentDebt && r.finalBalance == currentDebt + r.newDebt
    ensures PaymentOrZero(form.paymentAmount) > 0 ==> r.newDebt == VisitCost(catalog, form) - PaymentOrZero(form.paymentAmount)
    ensures PaymentOrZero(form.paymentAmount) <= 0 ==> r.newDebt == VisitCost(catalog, form)
    ensures r.newDebt <= VisitCost(catalog, form)
  {
    var paid := PaymentOrZero(form.paymentAmount);
    var newDebt := VisitCost(catalog, form) - (if paid > 0 then paid else 0);
    Projection(currentDebt, newDebt, currentDebt + newDebt)
  }

  /** The projected final balance is the patient's debt after the save. */
  lemma ProjectionMatchesSavedDebt(
    ts: seq<Treatment>, ps: seq<LegacyStore.Payment>, form: VisitForm, catalog: seq<ProcedureItem>,
    now: Timestamp, treatmentId: Id, paymentId: Id)
    requires form.procedure != ""
    ensures Project(LegacyStore.Debt(ts, ps, form.patient.id), catalog, form).finalBalance
         == DebtAfterSave(ts, ps, form, catalog, now, treatmentId, paymentId)
  {
    var v := HandleSave(form, catalog, now).value;
    LegacyStore.VisitDebtEffect(ts, ps, v, treatmentId, paymentId, form.patient.id);
  }

  /** Without a negative amount typed in, the form's projection is the corrected one. */
  lemma AsWrittenAgreesWithoutNegativePayment(currentDebt: int, catalog: seq<ProcedureItem>, form: VisitForm)
    requires PaymentOrZero(form.paymentAmount) >= 0
    ensures ProjectAsWritten(currentDebt, catalog, form) == Project(currentDebt, catalog, form)
  {
  }

  /**
   * With a negative amount typed in, the form's projection exceeds the debt the
   * store ends up with by that amount, since the store drops the payment.
   */
  lemma AsWrittenOverstatesNegativePayment(
    ts: seq<Treatment>, ps: seq<LegacyStore.Payment>, form: VisitForm, catalog: seq<ProcedureItem>,
    now: Timestamp, treatmentId: Id, paymentId: Id)
    requires form.procedure != "" && PaymentOrZero(form.paymentAmount) < 0
    ensures ProjectAsWritten(LegacyStore.Debt(ts, ps, form.patient.id), catalog, form).finalBalance
         == DebtAfterSave(ts, ps, form, catalog, now, treatmentId, paymentId) - PaymentOrZero(form.paymentAmount)
    ensures ProjectAsWritten(LegacyStore.Debt(ts, ps, form.patient.id), catalog, form).finalBalance
         > DebtAfterSave(ts, ps, form, catalog, now, treatmentId, paymentId)
  {
    ProjectionMatchesSavedDebt(ts, ps, form, catalog, now, treatmentId, paymentId);
  }
}
