/** The patient directory: a search box and a status facet over the list,
    per-status counts and the badge styles of each card. */
module PatientList {
  import opened Text
  import opened Lists
  import opened Types
  import opened MockData

  datatype StatusFilter = All | Only(status: Status)

  /** Case-insensitive search in the name or the UHID, or a plain substring
      of the mobile number. */
  predicate MatchesSearch(p: PatientListItem, term: string) {
    Contains(ToLower(p.name), ToLower(term))
    || Contains(ToLower(p.uhid), ToLower(term))
    || Contains(p.mobile, term)
  }

  predicate MatchesStatus(p: PatientListItem, facet: StatusFilter) {
    facet.All? || p.status == facet.status
  }

  predicate Matches(p: PatientListItem, term: string, facet: StatusFilter) {
    MatchesSearch(p, term) && MatchesStatus(p, facet)
  }

  /** `filteredPatients`. */
  function Filtered(patients: seq<PatientListItem>, term: string, facet: StatusFilter): seq<PatientListItem> {
    Filter(patients, p => Matches(p, term, facet))
  }

  predicate HasStatus(s: Status, p: PatientListItem) {
    p.status == s
  }

  /** The count beside a status tab, over the whole list. */
  function StatusCount(patients: seq<PatientListItem>, s: Status): nat {
    Count(patients, p => HasStatus(s, p))
  }

  /** `getRiskBadgeClass`. */
  function RiskBadgeClass(risk: string): (r: string)
    ensures r == "risk-high" <==> risk == "High"
    ensures r == "risk-medium" <==> risk == "Medium"
    ensures r == "risk-high" || r == "risk-medium" || r == "risk-low"
  {
    if risk == "High" then "risk-high"
    else if risk == "Medium" then "risk-medium"
    else "risk-low"
  }

  /** `getStatusBadgeClass`. */
  function StatusBadgeClass(status: string): (r: string)
    ensures r == "status-active" <==> status == "Active"
    ensures r == "status-delivered" <==> status == "Delivered"
    ensures r == "status-active" || r == "status-delivered" || r == "status-closed"
  {
    if status == "Active" then "status-active"
    else if status == "Delivered" then "status-delivered"
    else "status-closed"
  }

  function RiskName(r: RiskLevel): string {
    match r
    case Low => "Low"
    case Medium => "Medium"
    case High => "High"
  }

  function StatusName(s: Status): string {
    match s
    case Active => "Active"
    case Delivered => "Delivered"
    case Closed => "Closed"
  }

  /** "No patients found" is shown exactly when nothing matches. */
  predicate ShowsEmptyState(patients: seq<PatientListItem>, term: string, facet: StatusFilter) {
    Filtered(patients, term, facet) == []
  }

  // ---------------------------------------------------------------------
  // properties

  /** A patient is listed exactly when they are in the list and match both
      the search and the facet; the listed patients keep the list's order. */
  lemma FilteredRule(patients: seq<PatientListItem>, term: string, facet: StatusFilter, p: PatientListItem)
    ensures p in Filtered(patients, term, facet) <==> p in patients && Matches(p, term, facet)
    ensures forall a, b :: Filtered(a + b, term, facet) == Filtered(a, term, facet) + Filtered(b, term, facet)
  {
    FilterMembership(patients, q => Matches(q, term, facet), p);
    forall a, b
      ensures Filtered(a + b, term, facet) == Filtered(a, term, facet) + Filtered(b, term, facet)
    {
      FilterConcat(a, b, q => Matches(q, term, facet));
    }
  }

  /** With no search text and the All tab, every patient is listed, in order. */
  lemma EmptySearchListsAll(patients: seq<PatientListItem>)
    ensures Filtered(patients, "", All) == patients
  {
    forall p | p in patients
      ensures Matches(p, "", All)
    {
      ContainsEmpty(ToLower(p.name));
      assert ToLower("") == "";
    }
    FilterAll(patients, q => Matches(q, "", All));
  }

  /** Typing a patient's UHID in any letter case finds that patient. */
  lemma UhidAnyCase(patients: seq<PatientListItem>, p: PatientListItem, term: string)
    requires p in patients && ToLower(term) == ToLower(p.uhid)
    ensures p in Filtered(patients, term, All)
  {
    assert StartsWith(ToLower(p.uhid), ToLower(term));
    FilterKeeps(patients, q => Matches(q, term, All), p);
  }

  /** The empty-state message shows exactly when no patient matches. */
  lemma EmptyStateRule(patients: seq<PatientListItem>, term: string, facet: StatusFilter)
    ensures ShowsEmptyState(patients, term, facet) <==> forall p :: p in patients ==> !Matches(p, term, facet)
  {
    FilterEmpty(patients, q => Matches(q, term, facet));
  }

  /** The three status counts add up to the number of patients. */
  lemma {:induction false} CountsSum(patients: seq<PatientListItem>)
    ensures StatusCount(patients, Active) + StatusCount(patients, Delivered) + StatusCount(patients, Closed)
            == |patients|
  {
    if patients != [] {
      CountsSum(patients[1..]);
    }
  }

  /** Each risk level and each status gets its own badge style. */
  lemma BadgeStyles()
    ensures RiskBadgeClass(RiskName(High)) == "risk-high"
    ensures RiskBadgeClass(RiskName(Medium)) == "risk-medium"
    ensures RiskBadgeClass(RiskName(Low)) == "risk-low"
    ensures StatusBadgeClass(StatusName(Active)) == "status-active"
    ensures StatusBadgeClass(StatusName(Delivered)) == "status-delivered"
    ensures StatusBadgeClass(StatusName(Closed)) == "status-closed"
  {
  }

  /** A letter that occurs in neither case in `s` does not occur in its
      lower-case form. */
  lemma LowerAvoids(s: string, c: char)
    requires 'a' <= c <= 'z'
    requires c !in s && UpperChar(c) !in s
    ensures c !in ToLower(s)
  {
  }

  /** A lower-case search text whose first letter occurs in no case in the
      name, the UHID or the mobile number misses the row. */
  lemma SearchMisses(p: PatientListItem, term: string)
    requires term != [] && ToLower(term) == term && 'a' <= term[0] <= 'z'
    requires term[0] !in p.name && UpperChar(term[0]) !in p.name
    requires term[0] !in p.uhid && UpperChar(term[0]) !in p.uhid
    requires term[0] !in p.mobile
    ensures !MatchesSearch(p, term)
  {
    LowerAvoids(p.name, term[0]);
    LowerAvoids(p.uhid, term[0]);
    NotContainsFirstChar(ToLower(p.name), term);
    NotContainsFirstChar(ToLower(p.uhid), term);
    NotContainsFirstChar(p.mobile, term);
  }

  /** Priya Sharma's row matches "priya". */
  lemma PriyaMatches(term: string)
    requires term == "priya"
    ensures MatchesSearch(PriyaItem(), term)
  {
    assert ToLower(term) == term;
    assert ToLower(PriyaItem().name)[..5] == term;
  }
}
