/**
 * The read-only views both store versions share: the patient search and the
 * list of recently treated patients.
 */
module Views {
  import opened Wrappers
  import opened Records
  import opened Seqs
  import opened Sorting
  import opened Text

  // ---------------------------------------------------------------------------
  // searchPatients

  /**
   * The search as written: the query is lowered, first and last names are lowered
   * before the comparison, but the dni is compared as stored.
   */
  function MatchesQueryAsWritten(q: string): Patient -> bool
  {
    (p: Patient) => Contains(Lower(p.firstName), q) || Contains(Lower(p.lastName), q) || Contains(p.dni, q)
  }

  /**
   * `searchPatients(query)` as written: at most ten matching patients in store
   * order, the first ten matches, and every match when fewer than ten are returned.
   */
  function SearchPatientsAsWritten(patients: seq<Patient>, query: string): (r: seq<Patient>)
    ensures |r| <= 10
    ensures forall i :: 0 <= i < |r| ==> r[i] in patients && MatchesQueryAsWritten(Lower(query))(r[i])
    ensures |r| < 10 ==> forall i :: 0 <= i < |patients| && MatchesQueryAsWritten(Lower(query))(patients[i]) ==> patients[i] in r
    ensures IsSubsequence(r, patients)
    ensures forall i :: 0 <= i < |patients| && MatchesQueryAsWritten(Lower(query))(patients[i])
                        && |Filter(patients[..i], MatchesQueryAsWritten(Lower(query)))| < 10 ==>
              |Filter(patients[..i], MatchesQueryAsWritten(Lower(query)))| < |r|
              && r[|Filter(patients[..i], MatchesQueryAsWritten(Lower(query)))|] == patients[i]
  {
    FirstMatches(patients, MatchesQueryAsWritten(Lower(query)), 10);
    Take(Filter(patients, MatchesQueryAsWritten(Lower(query))), 10)
  }

  /**
   * `s.filter(p).slice(0, n)` keeps the first `n` matches in order: a match preceded
   * by k < n matches is the k-th element, and every match is kept when fewer than
   * `n` are.
   */
  lemma FirstMatches<T>(s: seq<T>, p: T -> bool, n: nat)
    ensures |Take(Filter(s, p), n)| < n ==> forall i :: 0 <= i < |s| && p(s[i]) ==> s[i] in Take(Filter(s, p), n)
    ensures IsSubsequence(Take(Filter(s, p), n), s)
    ensures forall i :: 0 <= i < |s| && p(s[i]) && |Filter(s[..i], p)| < n ==>
              |Filter(s[..i], p)| < |Take(Filter(s, p), n)| && Take(Filter(s, p), n)[|Filter(s[..i], p)|] == s[i]
  {
    var m := Filter(s, p);
    var r := Take(m, n);
    FilterIsSubsequence(s, p);
    TakeIsSubsequence(m, s, n);
    forall i | 0 <= i < |s| && p(s[i]) && |Filter(s[..i], p)| < n
      ensures |Filter(s[..i], p)| < |r| && r[|Filter(s[..i], p)|] == s[i]
    {
      MatchPosition(s, p, i);
    }
  }

  /**
   * A dni with letters is never found by its own text: searching for "8493021 LP"
   * lowers the query to "8493021 lp", which the stored dni does not contain.
   */
  lemma SearchAsWrittenMissesDniWithLetters()
    ensures var p := Patient("1", "Juan", "Perez", "8493021 LP", "", "", [], 0);
            SearchPatientsAsWritten([p], p.dni) == []
  {
    var p := Patient("1", "Juan", "Perez", "8493021 LP", "", "", [], 0);
    var q := Lower(p.dni);
    assert q == "8493021 lp";
    assert !Contains(p.dni, q) by {
      assert p.dni[..|q|] != q by { assert p.dni[8] != q[8]; }
      NotContainedInShorter(p.dni[1..], q);
    }
    assert !Contains(Lower(p.firstName), q) by { NotContainedInShorter(Lower(p.firstName), q); }
    assert !Contains(Lower(p.lastName), q) by { NotContainedInShorter(Lower(p.lastName), q); }
    assert [p][1..] == [];
  }

  lemma {:induction false} NotContainedInShorter(s: string, sub: string)
    requires |s| < |sub|
    ensures !Contains(s, sub)
    decreases |s|
  {
    if s != [] {
      NotContainedInShorter(s[1..], sub);
    }
  }

  /** The search with the dni lowered like the query, so every field is compared case-insensitively. */
  function MatchesQuery(q: string): Patient -> bool
  {
    (p: Patient) => Contains(Lower(p.firstName), q) || Contains(Lower(p.lastName), q) || Contains(Lower(p.dni), q)
  }

  /**
   * The search with the dni lowered: at most ten patients, each one matching the
   * query, the first ten matches in store order; when fewer than ten are returned,
   * every match is among them.
   */
  function SearchPatients(patients: seq<Patient>, query: string): (r: seq<Patient>)
    ensures |r| <= 10
    ensures forall i :: 0 <= i < |r| ==> r[i] in patients && MatchesQuery(Lower(query))(r[i])
    ensures |r| < 10 ==> forall i :: 0 <= i < |patients| && MatchesQuery(Lower(query))(patients[i]) ==> patients[i] in r
    ensures IsSubsequence(r, patients)
    ensures forall i :: 0 <= i < |patients| && MatchesQuery(Lower(query))(patients[i])
                        && |Filter(patients[..i], MatchesQuery(Lower(query)))| < 10 ==>
              |Filter(patients[..i], MatchesQuery(Lower(query)))| < |r|
              && r[|Filter(patients[..i], MatchesQuery(Lower(query)))|] == patients[i]
  {
    FirstMatches(patients, MatchesQuery(Lower(query)), 10);
    Take(Filter(patients, MatchesQuery(Lower(query))), 10)
  }

  lemma {:induction false} TakeIsSubsequence<T>(r: seq<T>, s: seq<T>, n: nat)
    requires IsSubsequence(r, s)
    ensures IsSubsequence(Take(r, n), s)
  {
    PrefixIsSubsequence(r, s, if |r| <= n then |r| else n);
  }

  lemma {:induction false} PrefixIsSubsequence<T>(r: seq<T>, s: seq<T>, k: nat)
    requires IsSubsequence(r, s) && k <= |r|
    ensures IsSubsequence(r[..k], s)
    decreases |s|
  {
    if k > 0 {
      assert s != [];
      if r[0] == s[0] && IsSubsequence(r[1..], s[1..]) {
        PrefixIsSubsequence(r[1..], s[1..], k - 1);
        assert r[..k][1..] == r[1..][..k - 1];
      } else {
        PrefixIsSubsequence(r, s[1..], k);
      }
    }
  }

  /** A match at `i` makes the matches before any later index at least one more. */
  lemma MatchesBeforeGrow<T>(s: seq<T>, p: T -> bool, i: nat, j: nat)
    requires i < j <= |s| && p(s[i])
    ensures |Filter(s[..i], p)| < |Filter(s[..j], p)|
  {
    assert s[..j] == s[..i] + [s[i]] + s[i + 1..j];
    FilterAppend(s[..i] + [s[i]], s[i + 1..j], p);
    FilterAppend(s[..i], [s[i]], p);
    assert [s[i]][1..] == [];
  }

  /** The position of a match in `s.filter(p)` is the number of matches before it. */
  lemma MatchPosition<T>(s: seq<T>, p: T -> bool, j: nat)
    requires j < |s| && p(s[j])
    ensures |Filter(s[..j], p)| < |Filter(s, p)| && Filter(s, p)[|Filter(s[..j], p)|] == s[j]
  {
    assert s == s[..j] + s[j..];
    FilterAppend(s[..j], s[j..], p);
    assert s[j..][0] == s[j];
  }

  /** One pair of matches `i < j`: returning `s[j]` means returning `s[i]`. */
  lemma FirstMatchesKeepEarlierPair<T>(s: seq<T>, p: T -> bool, n: nat, i: nat, j: nat)
    requires Distinct(s)
    requires i < j < |s| && p(s[i]) && p(s[j]) && s[j] in Take(Filter(s, p), n)
    ensures s[i] in Take(Filter(s, p), n)
  {
    var m := Filter(s, p);
    var r := Take(m, n);
    FilterDistinct(s, p);
    var k :| 0 <= k < |r| && r[k] == s[j];
    MatchPosition(s, p, j);
    assert m[k] == s[j];
    assert k == |Filter(s[..j], p)|;
    MatchesBeforeGrow(s, p, i, j);
    MatchPosition(s, p, i);
    assert r[|Filter(s[..i], p)|] == s[i];
  }

  /**
   * Over a list free of repeats, `s.filter(p).slice(0, n)` returns no match
   * without every match before it.
   */
  lemma FirstMatchesKeepEarlier<T>(s: seq<T>, p: T -> bool, n: nat)
    requires Distinct(s)
    ensures forall i, j :: 0 <= i < j < |s| && p(s[i]) && p(s[j]) && s[j] in Take(Filter(s, p), n) ==>
              s[i] in Take(Filter(s, p), n)
  {
    forall i, j | 0 <= i < j < |s| && p(s[i]) && p(s[j]) && s[j] in Take(Filter(s, p), n)
      ensures s[i] in Take(Filter(s, p), n)
    {
      FirstMatchesKeepEarlierPair(s, p, n, i, j);
    }
  }

  /**
   * With no patient record repeated, both searches return a patient only together
   * with every matching patient stored before it: they keep the first matches.
   */
  lemma SearchKeepsEarlierMatches(patients: seq<Patient>, query: string)
    requires Distinct(patients)
    ensures forall i, j ::
              (0 <= i < j < |patients| && MatchesQueryAsWritten(Lower(query))(patients[i])
               && MatchesQueryAsWritten(Lower(query))(patients[j]) && patients[j] in SearchPatientsAsWritten(patients, query))
              ==> patients[i] in SearchPatientsAsWritten(patients, query)
    ensures forall i, j ::
              (0 <= i < j < |patients| && MatchesQuery(Lower(query))(patients[i])
               && MatchesQuery(Lower(query))(patients[j]) && patients[j] in SearchPatients(patients, query))
              ==> patients[i] in SearchPatients(patients, query)
  {
    FirstMatchesKeepEarlier(patients, MatchesQueryAsWritten(Lower(query)), 10);
    FirstMatchesKeepEarlier(patients, MatchesQuery(Lower(query)), 10);
  }

  /** Searching for a patient's dni, first name or last name, in any letter case, matches that patient. */
  lemma QueryOfOwnFieldMatches(p: Patient, query: string)
    requires query == p.dni || query == p.firstName || query == p.lastName
    ensures MatchesQuery(Lower(query))(p)
  {
    ContainsItself(Lower(query));
  }

  // ---------------------------------------------------------------------------
  // getRecentTreatedPatients

  datatype RecentEntry = RecentEntry(patient: Patient, lastTreatment: Treatment)

  /**
   * What the recently-treated view promises: at most five entries, one per patient,
   * each the first patient record with that id paired with one of that patient's
   * treatments of the latest date, newest first; a patient with a record and a
   * treatment is missing only when five newer-or-equal entries fill the view.
   */
  ghost predicate IsRecentTreatedView(ts: seq<Treatment>, patients: seq<Patient>, r: seq<RecentEntry>)
  {
    && |r| <= 5
    && (forall i, j :: 0 <= i < j < |r| ==> r[i].patient.id != r[j].patient.id)
    && (forall i :: 0 <= i < |r| ==> r[i].lastTreatment in ts && r[i].lastTreatment.patientId == r[i].patient.id)
    && (forall i :: 0 <= i < |r| ==> Find(patients, PatientWithId(r[i].patient.id)) == Some(r[i].patient))
    && (forall i, t :: 0 <= i < |r| && t in ts && t.patientId == r[i].patient.id ==> t.date <= r[i].lastTreatment.date)
    && (forall i, j :: 0 <= i < j < |r| ==> r[i].lastTreatment.date >= r[j].lastTreatment.date)
    && (forall t :: t in ts && Find(patients, PatientWithId(t.patientId)).Some?
                    && (forall i :: 0 <= i < |r| ==> r[i].patient.id != t.patientId)
                    ==> |r| == 5 && t.date <= r[4].lastTreatment.date)
  }

  /** `getRecentTreatedPatients()`: the patient map over the newest-first treatments, resolved and cut to five. */
  method RecentTreatedPatients(ts: seq<Treatment>, patients: seq<Patient>) returns (r: seq<RecentEntry>)
    ensures IsRecentTreatedView(ts, patients, r)
  {
    var sorted := SortByKey(ts, NewestTreatmentFirst);
    var order, chosen := NewestPerPatient(ts, sorted);
    NewestCovers(ts, sorted, chosen);
    var result;
    ghost var at;
    result, at := ResolvePatients(order, chosen, patients);
    ResolvedOrder(order, chosen, result, at);
    r := Take(result, 5);
    RecentTreatedFacts(ts, order, chosen, result, at, patients, r);
  }

  /**
   * What the first `forEach` keeps after `i` treatments of the newest-first list:
   * `order` is the map's insertion order, without repeats; `chosen` maps each
   * patient seen to a treatment of theirs, no older than anything still to come,
   * and the map's order is newest first.
   */
  ghost predicate FirstSeen(ts: seq<Treatment>, sorted: seq<Treatment>, i: nat, order: seq<Id>, chosen: map<Id, Treatment>)
  {
    && i <= |sorted|
    && (forall a, b :: 0 <= a < b < |order| ==> order[a] != order[b])
    && (forall a :: 0 <= a < |order| ==> order[a] in chosen)
    && (forall k :: k in chosen ==> k in order && chosen[k] in ts && chosen[k].patientId == k)
    && (forall a, b :: 0 <= a < b < |order| ==> chosen[order[a]].date >= chosen[order[b]].date)
    && (forall k, j :: k in chosen && i <= j < |sorted| ==> chosen[k].date >= sorted[j].date)
    && (forall j :: 0 <= j < i ==> sorted[j].patientId in chosen && chosen[sorted[j].patientId].date >= sorted[j].date)
  }

  lemma FirstSeenKeep(ts: seq<Treatment>, sorted: seq<Treatment>, i: nat, order: seq<Id>, chosen: map<Id, Treatment>)
    requires FirstSeen(ts, sorted, i, order, chosen) && i < |sorted| && sorted[i].patientId in chosen
    ensures FirstSeen(ts, sorted, i + 1, order, chosen)
  {
  }

  lemma FirstSeenAdd(ts: seq<Treatment>, sorted: seq<Treatment>, i: nat, order: seq<Id>, chosen: map<Id, Treatment>)
    requires SortedBy(sorted, NewestTreatmentFirst) && multiset(sorted) == multiset(ts)
    requires FirstSeen(ts, sorted, i, order, chosen) && i < |sorted| && sorted[i].patientId !in chosen
    ensures FirstSeen(ts, sorted, i + 1, order + [sorted[i].patientId], chosen[sorted[i].patientId := sorted[i]])
  {
    var t := sorted[i];
    assert t in multiset(ts) by { assert t in multiset(sorted); }
    forall j | i < j < |sorted| ensures t.date >= sorted[j].date {
      assert NewestTreatmentFirst(sorted[i]) <= NewestTreatmentFirst(sorted[j]);
    }
    var order', chosen' := order + [t.patientId], chosen[t.patientId := t];
    forall a | 0 <= a < |order| ensures order'[a] == order[a] && order[a] != t.patientId && chosen'[order[a]] == chosen[order[a]] {
    }
    assert order'[|order|] == t.patientId;
    forall a, b | 0 <= a < b < |order'| ensures order'[a] != order'[b] && chosen'[order'[a]].date >= chosen'[order'[b]].date {
      if b < |order| {
        assert order'[b] == order[b];
      }
    }
    forall k | k in chosen' ensures k in order' && chosen'[k] in ts && chosen'[k].patientId == k {
      if k != t.patientId {
        assert k in order;
        var a :| 0 <= a < |order| && order[a] == k;
        assert order'[a] == k;
      }
    }
    forall j | 0 <= j < i + 1 ensures sorted[j].patientId in chosen' && chosen'[sorted[j].patientId].date >= sorted[j].date {
    }
  }

  /**
   * The first `forEach`: the first treatment seen for each patient, in a map whose
   * insertion order is `order`. Over a newest-first list that is each patient's newest.
   */
  method NewestPerPatient(ts: seq<Treatment>, sorted: seq<Treatment>) returns (order: seq<Id>, chosen: map<Id, Treatment>)
    requires SortedBy(sorted, NewestTreatmentFirst) && multiset(sorted) == multiset(ts)
    ensures FirstSeen(ts, sorted, |sorted|, order, chosen)
  {
    order := [];
    chosen := map[];
    var i := 0;
    while i < |sorted|
      invariant FirstSeen(ts, sorted, i, order, chosen)
    {
      var t := sorted[i];
      if t.patientId !in chosen {
        FirstSeenAdd(ts, sorted, i, order, chosen);
        order := order + [t.patientId];
        chosen := chosen[t.patientId := t];
      } else {
        FirstSeenKeep(ts, sorted, i, order, chosen);
      }
      i := i + 1;
    }
  }

  /**
   * After the first `q` map entries: `result` holds, in map order, exactly those
   * entries whose patient `find` resolves, and `at[e]` is the entry result `e`
   * came from.
   */
  ghost predicate Resolved(
    order: seq<Id>, chosen: map<Id, Treatment>, patients: seq<Patient>, q: nat,
    result: seq<RecentEntry>, at: seq<nat>)
  {
    && q <= |order|
    && (forall a :: 0 <= a < |order| ==> order[a] in chosen)
    && |at| == |result|
    && (forall e :: 0 <= e < |result| ==>
          at[e] < q && result[e].patient.id == order[at[e]] && result[e].lastTreatment == chosen[order[at[e]]]
          && Find(patients, PatientWithId(order[at[e]])) == Some(result[e].patient))
    && (forall a, b :: 0 <= a < b < |at| ==> at[a] < at[b])
    && (forall m :: 0 <= m < q && Find(patients, PatientWithId(order[m])).Some? ==>
          exists e :: 0 <= e < |result| && at[e] == m)
  }

  /** A map entry whose patient is unknown is skipped. */
  lemma ResolvedSkip(
    order: seq<Id>, chosen: map<Id, Treatment>, patients: seq<Patient>, q: nat,
    result: seq<RecentEntry>, at: seq<nat>)
    requires Resolved(order, chosen, patients, q, result, at) && q < |order|
    requires Find(patients, PatientWithId(order[q])).None?
    ensures Resolved(order, chosen, patients, q + 1, result, at)
  {
  }

  /** A map entry whose patient `find` resolves is appended. */
  lemma ResolvedAdd(
    order: seq<Id>, chosen: map<Id, Treatment>, patients: seq<Patient>, q: nat,
    result: seq<RecentEntry>, at: seq<nat>, p: Patient)
    requires Resolved(order, chosen, patients, q, result, at) && q < |order|
    requires Find(patients, PatientWithId(order[q])) == Some(p)
    ensures Resolved(order, chosen, patients, q + 1,
                     result + [RecentEntry(p, chosen[order[q]])], at + [q])
  {
    var result' := result + [RecentEntry(p, chosen[order[q]])];
    var at' := at + [q];
    forall m | 0 <= m <= q && Find(patients, PatientWithId(order[m])).Some?
      ensures exists e :: 0 <= e < |result'| && at'[e] == m
    {
      if m == q {
        assert at'[|at|] == m;
      } else {
        var e :| 0 <= e < |result| && at[e] == m;
        assert at'[e] == m;
      }
    }
  }

  /**
   * The second `forEach`: each map entry whose patient `find` resolves, in map order;
   * `at` records which map entry each result came from.
   */
  method ResolvePatients(order: seq<Id>, chosen: map<Id, Treatment>, patients: seq<Patient>)
    returns (result: seq<RecentEntry>, ghost at: seq<nat>)
    requires forall a :: 0 <= a < |order| ==> order[a] in chosen
    ensures |at| == |result|
    ensures forall e :: 0 <= e < |result| ==>
              at[e] < |order| && result[e].patient.id == order[at[e]] && result[e].lastTreatment == chosen[order[at[e]]]
              && Find(patients, PatientWithId(order[at[e]])) == Some(result[e].patient)
    ensures forall a, b :: 0 <= a < b < |at| ==> at[a] < at[b]
    ensures forall m :: 0 <= m < |order| && Find(patients, PatientWithId(order[m])).Some? ==>
              exists e :: 0 <= e < |result| && at[e] == m
  {
    result := [];
    at := [];
    var q := 0;
    while q < |order|
      invariant Resolved(order, chosen, patients, q, result, at)
    {
      var found := Find(patients, PatientWithId(order[q]));
      if found.Some? {
        ResolvedAdd(order, chosen, patients, q, result, at, found.value);
        result := result + [RecentEntry(found.value, chosen[order[q]])];
        at := at + [q];
      } else {
        ResolvedSkip(order, chosen, patients, q, result, at);
      }
      q := q + 1;
    }
  }

  /** Every treatment's patient has a chosen treatment at least as new. */
  lemma NewestCovers(ts: seq<Treatment>, sorted: seq<Treatment>, chosen: map<Id, Treatment>)
    requires multiset(sorted) == multiset(ts)
    requires forall j :: 0 <= j < |sorted| ==> sorted[j].patientId in chosen && chosen[sorted[j].patientId].date >= sorted[j].date
    ensures forall t :: t in ts ==> t.patientId in chosen && chosen[t.patientId].date >= t.date
  {
    forall t | t in ts ensures t.patientId in chosen && chosen[t.patientId].date >= t.date {
      assert t in multiset(sorted);
      var j :| 0 <= j < |sorted| && sorted[j] == t;
    }
  }

  /** The resolved entries keep the map's order: distinct patients, dates not increasing. */
  lemma ResolvedOrder(order: seq<Id>, chosen: map<Id, Treatment>, result: seq<RecentEntry>, at: seq<nat>)
    requires forall a, b :: 0 <= a < b < |order| ==> order[a] != order[b]
    requires forall a :: 0 <= a < |order| ==> order[a] in chosen
    requires forall a, b :: 0 <= a < b < |order| ==> chosen[order[a]].date >= chosen[order[b]].date
    requires |at| == |result|
    requires forall e :: 0 <= e < |result| ==>
               at[e] < |order| && result[e].patient.id == order[at[e]] && result[e].lastTreatment == chosen[order[at[e]]]
    requires forall a, b :: 0 <= a < b < |at| ==> at[a] < at[b]
    ensures forall a, b :: 0 <= a < b < |result| ==> result[a].patient.id != result[b].patient.id
    ensures forall a, b :: 0 <= a < b < |result| ==> result[a].lastTreatment.date >= result[b].lastTreatment.date
  {
    forall a, b | 0 <= a < b < |result|
      ensures result[a].patient.id != result[b].patient.id
      ensures result[a].lastTreatment.date >= result[b].lastTreatment.date
    {
      assert at[a] < at[b];
    }
  }

  /** The properties of the recently-treated view, from the two loops' invariants. */
  lemma RecentTreatedFacts(
    ts: seq<Treatment>, order: seq<Id>, chosen: map<Id, Treatment>,
    result: seq<RecentEntry>, at: seq<nat>, patients: seq<Patient>, r: seq<RecentEntry>)
    requires forall a :: 0 <= a < |order| ==> order[a] in chosen
    requires forall k :: k in chosen ==> k in order && chosen[k] in ts && chosen[k].patientId == k
    requires forall t :: t in ts ==> t.patientId in chosen && chosen[t.patientId].date >= t.date
    requires |at| == |result|
    requires forall e :: 0 <= e < |result| ==>
               at[e] < |order| && result[e].patient.id == order[at[e]] && result[e].lastTreatment == chosen[order[at[e]]]
               && Find(patients, PatientWithId(order[at[e]])) == Some(result[e].patient)
    requires forall m :: 0 <= m < |order| && Find(patients, PatientWithId(order[m])).Some? ==>
               exists e :: 0 <= e < |result| && at[e] == m
    requires forall a, b :: 0 <= a < b < |result| ==> result[a].patient.id != result[b].patient.id
    requires forall a, b :: 0 <= a < b < |result| ==> result[a].lastTreatment.date >= result[b].lastTreatment.date
    requires r == Take(result, 5)
    ensures IsRecentTreatedView(ts, patients, r)
  {
    assert |r| <= 5 && forall e :: 0 <= e < |r| ==> r[e] == result[e];
    forall t | t in ts && Find(patients, PatientWithId(t.patientId)).Some?
               && (forall i :: 0 <= i < |r| ==> r[i].patient.id != t.patientId)
      ensures |r| == 5 && t.date <= r[4].lastTreatment.date
    {
      var k := t.patientId;
      assert k in order;
      var m :| 0 <= m < |order| && order[m] == k;
      var e :| 0 <= e < |result| && at[e] == m;
      assert result[e].patient.id == k;
      assert e >= |r|;
      assert result[4].lastTreatment.date >= result[e].lastTreatment.date;
    }
  }
}
