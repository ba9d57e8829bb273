/** The record screen's left-hand menu: the header (initials as in the
    record sidebar), the risk block, the five menu items with the ANC visit
    count, the active item, and the "More Details" accordion. */
module PatientSidebar {
  import opened Wrappers
  import opened Lists
  import opened Types

  predicate IsAnc(v: VisitRecord) {
    v.template == ANC
  }

  /** `patient.visits.filter(v => v.template === 'ANC').length`. */
  function AncCount(p: Patient): nat {
    Count(p.visits, IsAnc)
  }

  /** `hasRisks`: the risk block is shown. */
  predicate ShowsRisks(p: Patient) {
    |p.obstetricHistory.riskFactors| > 0
  }

  datatype MenuItem = MenuItem(id: string, caption: string, count: Option<int>)

  /** `menuItems`: only the ANC item carries a count. */
  function MenuItems(p: Patient): seq<MenuItem> {
    [MenuItem("details", "Patient Details", None),
     MenuItem("anc", "ANC Visits", Some(AncCount(p))),
     MenuItem("medical-history", "Medical History", None),
     MenuItem("ob-history", "Obstetric History", None),
     MenuItem("gynecology", "Gynecology", None)]
  }

  /** `item.count !== undefined && item.count > 0`. */
  predicate ShowsCount(item: MenuItem) {
    item.count.Some? && item.count.value > 0
  }

  /** `activeSection === item.id`. */
  predicate IsActive(item: MenuItem, active: string) {
    item.id == active
  }

  /** The ids the menu can hand to `onSectionChange`. */
  function MenuIds(): seq<string> {
    ["details", "anc", "medical-history", "ob-history", "gynecology"]
  }

  // ---------------------------------------------------------------------
  // properties

  /** The ANC count is the number of ANC visits: the other visits make up
      the rest, and it is positive exactly when some visit is an ANC visit. */
  lemma AncCountRule(p: Patient)
    ensures AncCount(p) + Count(p.visits, v => !IsAnc(v)) == |p.visits|
    ensures AncCount(p) > 0 <==> exists v :: v in p.visits && IsAnc(v)
  {
    FilterSplit(p.visits, IsAnc, v => !IsAnc(v));
    FilterEmpty(p.visits, IsAnc);
  }

  /** The menu items carry the menu ids in order, so exactly the item whose
      id is the active section is marked, and none when the section is not
      on the menu. */
  lemma ActiveItemRule(p: Patient, active: string)
    ensures |MenuItems(p)| == |MenuIds()|
    ensures forall i :: 0 <= i < |MenuIds()| ==> MenuItems(p)[i].id == MenuIds()[i]
    ensures forall i, j :: 0 <= i < j < |MenuIds()| ==> MenuIds()[i] != MenuIds()[j]
    ensures forall i, j ::
              (0 <= i < |MenuItems(p)| && 0 <= j < |MenuItems(p)|
               && IsActive(MenuItems(p)[i], active) && IsActive(MenuItems(p)[j], active)) ==> i == j
    ensures (exists i :: 0 <= i < |MenuItems(p)| && IsActive(MenuItems(p)[i], active)) <==> active in MenuIds()
  {
  }

  /** Only the ANC item can show a count badge, and it does exactly when
      the patient has an ANC visit. */
  lemma CountBadgeRule(p: Patient)
    ensures forall i :: 0 <= i < |MenuItems(p)| && i != 1 ==> !ShowsCount(MenuItems(p)[i])
    ensures MenuItems(p)[1].id == "anc"
    ensures ShowsCount(MenuItems(p)[1]) <==> exists v :: v in p.visits && IsAnc(v)
  {
    AncCountRule(p);
  }

  // ---------------------------------------------------------------------
  // the accordion

  class MoreDetails {
    var open: bool

    constructor()
      ensures !open
    {
      open := false;
    }

    /** The accordion button. */
    method Toggle()
      modifies this
      ensures open == !old(open)
    {
      open := !open;
    }
  }
}
