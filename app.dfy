/** The application shell: the active navigation item, the selected
    patient (its UHID and its record, set and cleared together), the page
    rendered for that state, and the placeholder pages' titles. */
module App {
  import opened Wrappers
  import opened Types
  import opened MockData
  import opened Sidebar
  import opened PatientDetailView

  /** What `renderContent()` shows. */
  datatype Screen = Placeholder(title: string) | ListScreen | DetailScreen(patient: Patient)

  /** The `titles` table of `getPageTitle`. */
  const Titles: map<string, string> :=
    map["home" := "Home", "dashboard" := "Dashboard", "appointments" := "Appointments",
        "staff" := "Staff Management", "roles" := "Role Management",
        "notifications" := "Notifications", "settings" := "Settings", "help" := "Help & Support"]

  /** `titles[id] || 'Page'`. */
  function PageTitle(id: string): string {
    if id in Titles && Titles[id] != "" then Titles[id] else "Page"
  }

  /** `!selectedPatientUhid || !patient`: the empty UHID counts as none. */
  predicate NoSelection(uhid: Option<string>, patient: Option<Patient>) {
    uhid.None? || uhid.value == "" || patient.None?
  }

  /** `renderContent()`. */
  function Render(nav: string, uhid: Option<string>, patient: Option<Patient>): Screen {
    if nav != "patients" then Placeholder(PageTitle(nav))
    else if NoSelection(uhid, patient) then ListScreen
    else DetailScreen(patient.value)
  }

  /** The selection invariant: the UHID and the record are set together,
      and the record is the one the UHID names. */
  predicate Consistent(uhid: Option<string>, patient: Option<Patient>) {
    && (uhid.None? <==> patient.None?)
    && (patient.Some? ==> uhid.value != "" && patient.value.profile.uhid == uhid.value)
  }

  // ---------------------------------------------------------------------
  // properties

  /** A known page id gets its title; any other id, "Page". */
  lemma PageTitleRule(id: string)
    ensures id in Titles ==> PageTitle(id) == Titles[id]
    ensures PageTitle(id) == "Page" <==> id !in Titles
  {
  }

  /** The detail view is rendered exactly on the patients page with a
      selected patient, and then shows that patient; with the invariant,
      the record alone decides. */
  lemma RenderRule(nav: string, uhid: Option<string>, patient: Option<Patient>)
    ensures Render(nav, uhid, patient).DetailScreen? <==>
              nav == "patients" && uhid.Some? && uhid.value != "" && patient.Some?
    ensures Render(nav, uhid, patient).DetailScreen? ==> Render(nav, uhid, patient).patient == patient.value
    ensures Render(nav, uhid, patient).Placeholder? <==> nav != "patients"
    ensures Consistent(uhid, patient) ==>
              (Render(nav, uhid, patient).DetailScreen? <==> nav == "patients" && patient.Some?)
  {
  }

  /** Selecting a UHID from the directory either finds a record that fits
      the invariant or finds none. */
  lemma SelectionConsistent(uhid: string)
    ensures GetPatientByUhid(uhid).Some? ==> Consistent(Some(uhid), GetPatientByUhid(uhid))
  {
  }

  /** A profile edited in the modal and saved from the record screen
      keeps the selection consistent, so `onPatientUpdate` may take it. */
  lemma EditedRecordConsistent(uhid: string, p: Patient, f: Field, v: FieldValue)
    requires Consistent(Some(uhid), Some(p))
    requires Fits(f, v) && Editable(f)
    ensures Consistent(Some(uhid), Some(ProfileSaved(p, WithField(p.profile, f, v))))
  {
    EditKeepsUhid(p.profile, f, v);
  }

  // ---------------------------------------------------------------------
  // the component

  class Shell {
    var sidebarCollapsed: bool
    var activeNavItem: string
    var selectedPatientUhid: Option<string>
    var patient: Option<Patient>

    ghost predicate Valid()
      reads this
    {
      Consistent(selectedPatientUhid, patient)
    }

    /** The app opens on the patients page with nothing selected. */
    constructor()
      ensures Valid()
      ensures activeNavItem == "patients" && selectedPatientUhid.None? && patient.None?
      ensures !sidebarCollapsed
    {
      sidebarCollapsed := false;
      activeNavItem := "patients";
      selectedPatientUhid := None;
      patient := None;
    }

    /** `handleSelectPatient(uhid)`: on a hit both fields are set; on a
        miss nothing changes (the alert is the only effect). */
    method SelectPatient(uhid: string)
      requires Valid()
      modifies this
      ensures Valid()
      ensures GetPatientByUhid(uhid).Some? ==>
                patient == GetPatientByUhid(uhid) && selectedPatientUhid == Some(uhid)
      ensures GetPatientByUhid(uhid).None? ==>
                patient == old(patient) && selectedPatientUhid == old(selectedPatientUhid)
      ensures activeNavItem == old(activeNavItem) && sidebarCollapsed == old(sidebarCollapsed)
    {
      var found := GetPatientByUhid(uhid);
      if found.Some? {
        patient := found;
        selectedPatientUhid := Some(uhid);
      }
    }

    /** `handleBackToList()`. */
    method BackToList()
      modifies this
      ensures Valid()
      ensures selectedPatientUhid.None? && patient.None?
      ensures activeNavItem == old(activeNavItem) && sidebarCollapsed == old(sidebarCollapsed)
    {
      selectedPatientUhid := None;
      patient := None;
    }

    /** A click on a navigation item: leaving the patients page clears the
        selection. */
    method NavItemClick(id: string)
      requires Valid()
      modifies this
      ensures Valid()
      ensures activeNavItem == id && sidebarCollapsed == old(sidebarCollapsed)
      ensures id != "patients" ==> selectedPatientUhid.None? && patient.None?
      ensures id == "patients" ==>
                selectedPatientUhid == old(selectedPatientUhid) && patient == old(patient)
    {
      activeNavItem := id;
      if id != "patients" {
        selectedPatientUhid := None;
        patient := None;
      }
    }

    /** The application sidebar's collapse button. */
    method ToggleSidebar()
      modifies this
      ensures sidebarCollapsed == !old(sidebarCollapsed)
      ensures activeNavItem == old(activeNavItem)
      ensures selectedPatientUhid == old(selectedPatientUhid) && patient == old(patient)
    {
      sidebarCollapsed := !sidebarCollapsed;
    }

    /** `onPatientUpdate`, which only the detail view calls, so a record is
        selected; the profile editor keeps the UHID. */
    method UpdatePatient(updated: Patient)
      requires Valid() && patient.Some?
      requires updated.profile.uhid == patient.value.profile.uhid
      modifies this
      ensures Valid()
      ensures patient == Some(updated) && selectedPatientUhid == old(selectedPatientUhid)
      ensures activeNavItem == old(activeNavItem) && sidebarCollapsed == old(sidebarCollapsed)
    {
      patient := Some(updated);
    }

    /** What the shell renders. */
    function Shown(): Screen
      reads this
    {
      Render(activeNavItem, selectedPatientUhid, patient)
    }
  }
}
