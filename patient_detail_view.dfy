/** The record screen: the active section chosen from the menu, the
    breadcrumb label, the page each section renders, and the profile modal
    whose save hands the patient with the new profile to the parent. */
module PatientDetailView {
  import opened Types
  import opened PatientSidebar

  /** The pages the screen can render. */
  datatype Content = DetailsPage | AncFormPage | GynecologyFormPage | GeneralPlaceholder

  /** `getSectionLabel()`: the four known sections have fixed labels, any
      other section is shown as its id. */
  function SectionLabel(section: string): string {
    if section == "details" then "Patient Details"
    else if section == "anc" then "ANC Case"
    else if section == "gynecology" then "Gynecology"
    else if section == "general" then "General Visits"
    else section
  }

  /** `renderContent()`. */
  function ContentOf(section: string): Content {
    if section == "anc" then AncFormPage
    else if section == "gynecology" then GynecologyFormPage
    else if section == "general" then GeneralPlaceholder
    else DetailsPage
  }

  /** `{ ...patient, profile: updated }`. */
  function ProfileSaved(p: Patient, updated: PatientProfile): Patient {
    p.(profile := updated)
  }

  // ---------------------------------------------------------------------
  // properties

  /** The label of a known section is its fixed label; every other section
      is labelled by its own id. */
  lemma SectionLabelRule(section: string)
    ensures section == "details" ==> SectionLabel(section) == "Patient Details"
    ensures section == "anc" ==> SectionLabel(section) == "ANC Case"
    ensures section == "gynecology" ==> SectionLabel(section) == "Gynecology"
    ensures section == "general" ==> SectionLabel(section) == "General Visits"
    ensures SectionLabel(section) == section <==> section !in {"details", "anc", "gynecology", "general"}
  {
  }

  /** Every section other than the ANC, gynecology and general ones renders
      the details page. */
  lemma UnknownSectionShowsDetails(section: string)
    ensures ContentOf(section) == DetailsPage <==> section !in {"anc", "gynecology", "general"}
  {
  }

  /** From the menu, "ANC Visits" and "Gynecology" open their forms and
      the other three items the details page, labelled by the item's id for
      the two history items; the general section is not on the menu. */
  lemma MenuSectionsRule(p: Patient)
    ensures forall i :: 0 <= i < |MenuIds()| ==> MenuIds()[i] != "general"
    ensures ContentOf(MenuIds()[1]) == AncFormPage && ContentOf(MenuIds()[4]) == GynecologyFormPage
    ensures ContentOf(MenuIds()[0]) == DetailsPage && ContentOf(MenuIds()[2]) == DetailsPage
    ensures ContentOf(MenuIds()[3]) == DetailsPage
    ensures SectionLabel(MenuIds()[2]) == "medical-history" && SectionLabel(MenuIds()[3]) == "ob-history"
  {
  }

  /** The patient handed on has the new profile and everything else of the
      old record; saving the old profile back restores the record. */
  lemma ProfileSavedRule(p: Patient, updated: PatientProfile)
    ensures ProfileSaved(p, updated).profile == updated
    ensures ProfileSaved(ProfileSaved(p, updated), p.profile) == p
    ensures ProfileSaved(p, updated).visits == p.visits
    ensures ProfileSaved(p, updated).obstetricHistory == p.obstetricHistory
  {
  }

  // ---------------------------------------------------------------------
  // the component

  class DetailView {
    const patient: Patient
    var activeSection: string
    var showEditProfile: bool

    /** The screen opens on the details section with the modal closed. */
    constructor(patient: Patient)
      ensures this.patient == patient && activeSection == "details" && !showEditProfile
    {
      this.patient := patient;
      activeSection := "details";
      showEditProfile := false;
    }

    /** `onSectionChange` from the menu. */
    method SectionChange(section: string)
      modifies this
      ensures activeSection == section && showEditProfile == old(showEditProfile)
    {
      activeSection := section;
    }

    /** The edit buttons of the menu header and the details page. */
    method OpenEditProfile()
      modifies this
      ensures showEditProfile && activeSection == old(activeSection)
    {
      showEditProfile := true;
    }

    /** The modal's close and cancel buttons. */
    method CloseEditProfile()
      modifies this
      ensures !showEditProfile && activeSection == old(activeSection)
    {
      showEditProfile := false;
    }

    /** `handleProfileSave(updated)`: the returned record is what
        `onPatientUpdate` receives; the modal closes. */
    method HandleProfileSave(updated: PatientProfile) returns (handed: Patient)
      modifies this
      ensures handed == ProfileSaved(patient, updated)
      ensures !showEditProfile && activeSection == old(activeSection)
    {
      handed := ProfileSaved(patient, updated);
      showEditProfile := false;
    }

    /** The breadcrumb's section label. */
    function Label(): string
      reads this
    {
      SectionLabel(activeSection)
    }

    /** The page shown. */
    function Shown(): Content
      reads this
    {
      ContentOf(activeSection)
    }
  }
}
