/**
 * The figures of the finance screen (scr/components/FinanceManager.tsx): the
 * income of the current day, month or year, the debtor list enriched with each
 * debtor's last treatment date, its total, and the debtor search and sort.
 */
module Finance {
  import opened Wrappers
  import opened Records
  import opened Seqs
  import opened Sorting
  import opened Text
  import opened Ledger

  // ---------------------------------------------------------------------------
  // calculateIncome

  /** A calendar date in the browser's time zone: `getFullYear`, `getMonth`, `getDate`. */
  datatype CivilDate = CivilDate(year: int, month: int, day: int)

  datatype TimeFrame = Day | Month | Year

  /** Whether a payment dated `d` falls in the frame around `now`. */
  predicate InFrame(frame: TimeFrame, d: CivilDate, now: CivilDate)
  {
    match frame
    case Day => d.day == now.day && d.month == now.month && d.year == now.year
    case Month => d.month == now.month && d.year == now.year
    case Year => d.year == now.year
  }

  /** The payments `calculateIncome` keeps: not cancelled, and dated inside the frame. */
  function Counted(frame: TimeFrame, now: CivilDate, calendar: Timestamp -> CivilDate): Payment -> bool
  {
    (p: Payment) => p.status != Cancelled && InFrame(frame, calendar(p.date), now)
  }

  /**
   * `calculateIncome()`: the sum of the counted payments. `calendar` turns a
   * timestamp into its date in the browser's time zone, `now` is today's date.
   */
  function IncomeIn(ps: seq<Payment>, frame: TimeFrame, now: CivilDate, calendar: Timestamp -> CivilDate): int
  {
    SumOf(Filter(ps, Counted(frame, now, calendar)), Amount)
  }

  /** A payment counted for the day counts for the month, and one counted for the month counts for the year. */
  lemma FramesNest(p: Payment, now: CivilDate, calendar: Timestamp -> CivilDate)
    ensures Counted(Day, now, calendar)(p) ==> Counted(Month, now, calendar)(p)
    ensures Counted(Month, now, calendar)(p) ==> Counted(Year, now, calendar)(p)
    ensures Counted(Year, now, calendar)(p) ==> p.status != Cancelled
  {
  }

  /**
   * With no negative amounts, the day's income is at most the month's, which is at
   * most the year's, which is at most the income over all active payments.
   */
  lemma IncomeFramesNest(ps: seq<Payment>, now: CivilDate, calendar: Timestamp -> CivilDate)
    requires forall i :: 0 <= i < |ps| ==> ps[i].amount >= 0
    ensures IncomeIn(ps, Day, now, calendar) <= IncomeIn(ps, Month, now, calendar)
    ensures IncomeIn(ps, Month, now, calendar) <= IncomeIn(ps, Year, now, calendar)
    ensures IncomeIn(ps, Year, now, calendar) <= Income(ps)
    ensures IncomeIn(ps, Day, now, calendar) >= 0
  {
    forall x | x in ps
      ensures Amount(x) >= 0
      ensures Counted(Day, now, calendar)(x) ==> Counted(Month, now, calendar)(x)
      ensures Counted(Month, now, calendar)(x) ==> Counted(Year, now, calendar)(x)
      ensures Counted(Year, now, calendar)(x) ==> IsActive(x)
    {
      FramesNest(x, now, calendar);
    }
    SumFilterMonotone(ps, Counted(Day, now, calendar), Counted(Month, now, calendar), Amount);
    SumFilterMonotone(ps, Counted(Month, now, calendar), Counted(Year, now, calendar), Amount);
    SumFilterMonotone(ps, Counted(Year, now, calendar), IsActive, Amount);
    forall x | x in Filter(ps, Counted(Day, now, calendar)) ensures Amount(x) >= 0 {
    }
    SumNonNegative(Filter(ps, Counted(Day, now, calendar)), Amount);
  }

  /**
   * Cancelling a payment takes its amount out of every frame it was counted in
   * and changes nothing else; an unknown id changes no income.
   */
  lemma CancelledPaymentLeavesIncome(ps: seq<Payment>, id: Id, frame: TimeFrame, now: CivilDate, calendar: Timestamp -> CivilDate)
    ensures FirstIndex(ps, PaymentWithId(id)).None? ==>
              IncomeIn(Ledger.CancelPayment(ps, id), frame, now, calendar) == IncomeIn(ps, frame, now, calendar)
    ensures FirstIndex(ps, PaymentWithId(id)).Some? ==>
              var p := ps[FirstIndex(ps, PaymentWithId(id)).value];
              IncomeIn(Ledger.CancelPayment(ps, id), frame, now, calendar)
              == IncomeIn(ps, frame, now, calendar) - (if Counted(frame, now, calendar)(p) then p.amount else 0)
  {
    match FirstIndex(ps, PaymentWithId(id))
    case None =>
    case Some(i) =>
      assert Ledger.CancelPayment(ps, id) == ps[i := MarkCancelled(ps[i])];
      SumFilterUpdate(ps, i, MarkCancelled(ps[i]), Counted(frame, now, calendar), Amount);
  }

  /** `filteredPayments`: the payments whose patient name contains the term, ignoring case. */
  function PaymentMatches(term: string): Payment -> bool
  {
    (p: Payment) => Contains(Lower(p.patientName), Lower(term))
  }

  function FilteredPayments(ps: seq<Payment>, term: string): (r: seq<Payment>)
    ensures forall p :: p in r <==> p in ps && Contains(Lower(p.patientName), Lower(term))
    ensures IsSubsequence(r, ps)
    ensures multiset(r) == multiset(Filter(ps, PaymentMatches(term)))
  {
    FilterIsSubsequence(ps, PaymentMatches(term));
    Filter(ps, PaymentMatches(term))
  }

  // ---------------------------------------------------------------------------
  // refreshData: debtors with their last treatment date, and the total debt

  datatype EnrichedDebtor = EnrichedDebtor(patient: Patient, debt: int, lastTreatmentDate: Timestamp)

  /**
   * `getTreatmentsByPatient(id)[0].date`, or the patient's `createdAt` when
   * there is none: the date of the patient's newest treatment.
   */
  function LastTreatmentDate(ts: seq<Treatment>, p: Patient): (d: Timestamp)
    ensures (forall i :: 0 <= i < |ts| ==> ts[i].patientId != p.id) ==> d == p.createdAt
    ensures (exists i :: 0 <= i < |ts| && ts[i].patientId == p.id) ==>
              (exists i :: 0 <= i < |ts| && ts[i].patientId == p.id && ts[i].date == d)
              && (forall i :: 0 <= i < |ts| && ts[i].patientId == p.id ==> ts[i].date <= d)
  {
    var mine := Filter(ts, TreatmentOfPatient(p.id));
    var newest := SortByKey(mine, NewestTreatmentFirst);
    LastTreatmentFacts(ts, p, mine, newest);
    if |newest| > 0 then newest[0].date else p.createdAt
  }

  lemma LastTreatmentFacts(ts: seq<Treatment>, p: Patient, mine: seq<Treatment>, newest: seq<Treatment>)
    requires mine == Filter(ts, TreatmentOfPatient(p.id))
    requires SortedBy(newest, NewestTreatmentFirst) && multiset(newest) == multiset(mine)
    ensures |newest| == 0 <==> forall i :: 0 <= i < |ts| ==> ts[i].patientId != p.id
    ensures |newest| > 0 ==>
              (exists i :: 0 <= i < |ts| && ts[i].patientId == p.id && ts[i].date == newest[0].date)
              && (forall i :: 0 <= i < |ts| && ts[i].patientId == p.id ==> ts[i].date <= newest[0].date)
  {
    assert |newest| == |mine| by { assert |multiset(newest)| == |multiset(mine)|; }
    if |newest| > 0 {
      assert newest[0] in multiset(mine);
      var i :| 0 <= i < |ts| && ts[i] == newest[0];
      forall k | 0 <= k < |ts| && ts[k].patientId == p.id ensures ts[k].date <= newest[0].date {
        assert ts[k] in multiset(newest);
        var j :| 0 <= j < |newest| && newest[j] == ts[k];
        if j > 0 {
          assert NewestTreatmentFirst(newest[0]) <= NewestTreatmentFirst(newest[j]);
        }
      }
    }
  }

  /** Each debtor keeps its patient and debt and gains its last treatment date. */
  function Enrich(debtors: seq<DebtorEntry>, ts: seq<Treatment>): (r: seq<EnrichedDebtor>)
    ensures |r| == |debtors|
    ensures forall i :: 0 <= i < |r| ==>
              r[i].patient == debtors[i].patient && r[i].debt == debtors[i].debt
              && r[i].lastTreatmentDate == LastTreatmentDate(ts, debtors[i].patient)
  {
    seq(|debtors|, i requires 0 <= i < |debtors| =>
      EnrichedDebtor(debtors[i].patient, debtors[i].debt, LastTreatmentDate(ts, debtors[i].patient)))
  }

  function DebtOf(d: EnrichedDebtor): int { d.debt }

  /** `d.reduce((acc, curr) => acc + curr.debt, 0)`. */
  function TotalDebt(ds: seq<EnrichedDebtor>): int
  {
    SumOf(ds, DebtOf)
  }

  /**
   * The screen's total debt: positive exactly when some patient owes money,
   * zero otherwise.
   */
  lemma TotalDebtOfDebtors(patients: seq<Patient>, ts: seq<Treatment>, ps: seq<Payment>)
    ensures TotalDebt(Enrich(Debtors(patients, ts, ps), ts)) >= 0
    ensures TotalDebt(Enrich(Debtors(patients, ts, ps), ts)) > 0 <==>
              exists i :: 0 <= i < |patients| && Debt(ts, ps, patients[i].id) > 0
  {
    var debtors := Debtors(patients, ts, ps);
    DebtorsAreThePatientsInDebt(patients, ts, ps);
    SomeoneInDebt(patients, ts, ps, debtors);
    TotalOfPositiveDebts(Enrich(debtors, ts));
  }

  lemma SomeoneInDebt(patients: seq<Patient>, ts: seq<Treatment>, ps: seq<Payment>, debtors: seq<DebtorEntry>)
    requires forall e :: e in debtors <==> e.patient in patients && e.debt == Debt(ts, ps, e.patient.id) && e.debt > 0
    ensures forall i :: 0 <= i < |debtors| ==> debtors[i].debt > 0
    ensures debtors != [] <==> exists i :: 0 <= i < |patients| && Debt(ts, ps, patients[i].id) > 0
  {
    forall i | 0 <= i < |debtors| ensures debtors[i].debt > 0 {
      assert debtors[i] in debtors;
    }
    if exists i :: 0 <= i < |patients| && Debt(ts, ps, patients[i].id) > 0 {
      var i :| 0 <= i < |patients| && Debt(ts, ps, patients[i].id) > 0;
      assert DebtorEntry(patients[i], Debt(ts, ps, patients[i].id)) in debtors;
    }
    if debtors != [] {
      assert debtors[0] in debtors;
      var k :| 0 <= k < |patients| && patients[k] == debtors[0].patient;
      assert Debt(ts, ps, patients[k].id) > 0;
    }
  }

  /** A total of positive debts is positive exactly when there is a debt to add. */
  lemma TotalOfPositiveDebts(ds: seq<EnrichedDebtor>)
    requires forall i :: 0 <= i < |ds| ==> ds[i].debt > 0
    ensures TotalDebt(ds) >= 0
    ensures TotalDebt(ds) > 0 <==> ds != []
  {
    forall d | d in ds ensures DebtOf(d) > 0 {
    }
    SumPositive(ds, DebtOf);
  }

  // ---------------------------------------------------------------------------
  // processedDebtors

  datatype SortMode = Highest | Lowest | Newest | Oldest

  /**
   * The debtor search: first or last name containing the term, ignoring case, or
   * the dni containing the term exactly as typed.
   */
  function DebtorMatches(term: string): EnrichedDebtor -> bool
  {
    (d: EnrichedDebtor) =>
      Contains(Lower(d.patient.firstName), Lower(term)) || Contains(Lower(d.patient.lastName), Lower(term))
      || Contains(d.patient.dni, term)
  }

  function ByDebtDown(d: EnrichedDebtor): int { -d.debt }
  function ByDebtUp(d: EnrichedDebtor): int { d.debt }
  function ByDateDown(d: EnrichedDebtor): int { -d.lastTreatmentDate }
  function ByDateUp(d: EnrichedDebtor): int { d.lastTreatmentDate }

  /** The four comparators of the sort, as sort keys. */
  function SortKey(mode: SortMode): EnrichedDebtor -> int
  {
    match mode
    case Highest => ByDebtDown
    case Lowest => ByDebtUp
    case Newest => ByDateDown
    case Oldest => ByDateUp
  }

  /** The order each sort mode promises between an earlier entry `a` and a later entry `b`. */
  predicate InModeOrder(mode: SortMode, a: EnrichedDebtor, b: EnrichedDebtor)
  {
    match mode
    case Highest => a.debt >= b.debt
    case Lowest => a.debt <= b.debt
    case Newest => a.lastTreatmentDate >= b.lastTreatmentDate
    case Oldest => a.lastTreatmentDate <= b.lastTreatmentDate
  }

  /**
   * `processedDebtors`: a permutation of the debtors matching the search, in the
   * order of the chosen sort mode.
   */
  function ProcessedDebtors(ds: seq<EnrichedDebtor>, term: string, mode: SortMode): (r: seq<EnrichedDebtor>)
    ensures multiset(r) == multiset(Filter(ds, DebtorMatches(term)))
    ensures forall d :: d in r <==> d in ds && DebtorMatches(term)(d)
    ensures forall i, j :: 0 <= i < j < |r| ==> InModeOrder(mode, r[i], r[j])
  {
    var found := Filter(ds, DebtorMatches(term));
    var r := SortByKey(found, SortKey(mode));
    assert forall d :: d in r <==> d in multiset(found);
    SortedInModeOrder(r, mode);
    r
  }

  lemma SortedInModeOrder(r: seq<EnrichedDebtor>, mode: SortMode)
    requires SortedBy(r, SortKey(mode))
    ensures forall i, j :: 0 <= i < j < |r| ==> InModeOrder(mode, r[i], r[j])
  {
    forall i, j | 0 <= i < j < |r| ensures InModeOrder(mode, r[i], r[j]) {
      assert SortKey(mode)(r[i]) <= SortKey(mode)(r[j]);
      match mode
      case Highest => assert ByDebtDown(r[i]) <= ByDebtDown(r[j]);
      case Lowest => assert ByDebtUp(r[i]) <= ByDebtUp(r[j]);
      case Newest => assert ByDateDown(r[i]) <= ByDateDown(r[j]);
      case Oldest => assert ByDateUp(r[i]) <= ByDateUp(r[j]);
    }
  }

  /** An empty search term keeps every debtor; the sort only reorders them. */
  lemma EmptyTermKeepsAll(ds: seq<EnrichedDebtor>, mode: SortMode)
    ensures multiset(ProcessedDebtors(ds, "", mode)) == multiset(ds)
  {
    forall d | d in ds ensures DebtorMatches("")(d) {
      ContainsEmpty(Lower(d.patient.firstName));
    }
    FilterKeepsAll(ds, DebtorMatches(""));
  }

  /** The newer store's dni is searched as typed here, so a dni with letters is found by its own text. */
  lemma DebtorFoundByOwnDni(d: EnrichedDebtor)
    ensures DebtorMatches(d.patient.dni)(d)
  {
    ContainsItself(d.patient.dni);
  }
}
