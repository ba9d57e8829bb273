/** The demonstration data: one full patient record (Chaitra), the patient
    directory, the lookup by UHID and the new-visit template. */
module MockData {
  import opened Wrappers
  import opened Types

  const ChaitraUhid: string := "WMN-2025-001"

  function ChaitraProfile(): PatientProfile {
    PatientProfile(
      ChaitraUhid, "Chaitra", 29, Some("1996-03-15"), Some("IT"), Some("Mr. Ramana"), Some("IT"),
      "Jaynagar, Bangalore", "9876543210", [], "O", Positive, Some("O+ve"))
  }

  function ChaitraObstetricHistory(): ObstetricHistory {
    ObstetricHistory(
      4, 0, 0, 3, "2025-04-01", "2026-01-08", Some("2026-01-05"), Regular,
      ["H/o Depression on Rx", "GDM on Diet + OHA + Insulin"],
      Some("Percan @ 37 wks, Psych evaluation, R/o macrosomia, Polyhydramnios watch"),
      Some("Nil"), Normal, Some("2 yrs"))
  }

  function ChaitraPastPregnancies(): seq<PastObstetricEntry> {
    [PastObstetricEntry(1, 2020, "MTOP for social reasons", "Medical", None, None, Some("")),
     PastObstetricEntry(2, 2022, "Missed miscarriage", "Medical Mx", None, None, Some("")),
     PastObstetricEntry(3, 2024, "Missed miscarriage", "Me & Mx", None, None, Some("")),
     PastObstetricEntry(4, 2024, "PP (Spontaneous)", "", None, None, Some("APC Neg"))]
  }

  function ChaitraMedicalHistory(): HistoryEntries {
    [("diabetes", Flag(false)), ("hypertension", Flag(false)), ("thyroid", Flag(true)),
     ("migraine", Flag(false)), ("cardiac", Flag(false)), ("epilepsy", Flag(false)),
     ("asthma", Flag(false)), ("tb", Flag(false)), ("bloodTransfusion", Flag(false)),
     ("surgery", Note("H/o Lap Appendicectomy")), ("thromboembolism", Flag(false)),
     ("psychiatricProblems", Note("H/o Depression on Rx")), ("hduIcuAdmission", Flag(false))]
  }

  function ChaitraFamilyHistory(): HistoryEntries {
    [("diabetes", Flag(true)), ("hypertension", Flag(true)), ("thyroid", Flag(false)),
     ("stroke", Flag(false)), ("tb", Flag(false)), ("cancers", Flag(false)), ("twin", Flag(false)),
     ("physicallyChallenged", Flag(false)), ("mentallyChallenged", Flag(false)),
     ("thromboembolism", Flag(false)), ("psychiatricProblems", Flag(false))]
  }

  function ChaitraPersonalHistory(): HistoryEntries {
    [("smoking", Flag(false)), ("alcohol", Flag(false)), ("consanguinity", Flag(false)),
     ("psychStress", Flag(true))]
  }

  function ChaitraVisits(): seq<VisitRecord> {
    [VisitRecord("v1", "2025-05-16", ANC, Some("H/o vomiting, tiredness"), Some(55.0), Some(110.0),
                 Some(70.0), Some(7.0), None, None, None, false, false, None, None, None,
                 Some("T3, T4, Seratil, Uterogel"), Some("2025-06-12"), Some("Dr. Smith")),
     VisitRecord("v2", "2025-06-12", ANC, Some("Well, FTS"), Some(56.0), Some(120.0), Some(80.0),
                 Some(12.0), None, None, None, false, false, None, None, None, Some("U Well"),
                 Some("2025-07-10"), Some("Dr. Smith")),
     VisitRecord("v3", "2025-07-10", ANC, Some("Well"), Some(57.0), Some(120.0), Some(70.0),
                 Some(16.0), Some(16.0), None, None, false, false, None, None, None,
                 Some("H/o bleeding, Flu burning micturition"), Some("2025-08-07"), Some("Dr. Smith"))]
  }

  /** `chaitraPatient`. */
  function Chaitra(): Patient {
    Patient(
      ChaitraProfile(), ChaitraObstetricHistory(), ChaitraPastPregnancies(),
      ChaitraMedicalHistory(), ChaitraFamilyHistory(), ChaitraPersonalHistory(),
      Some("Thyronorm 50mcg"), Some(""),
      LabResults(Some(11.5), Some(34.0), None, None, None, Some(2.5), None, None, None, None,
                 None, None, None),
      ChaitraVisits())
  }

  function ChaitraItem(): PatientListItem {
    PatientListItem(ChaitraUhid, "Chaitra", 29, "9876543210", "O", Positive, Some("2025-04-01"),
                    Some("2026-01-08"), Some(16), High, Some("2025-07-10"), Some("2025-08-07"), Active)
  }

  function PriyaItem(): PatientListItem {
    PatientListItem("WMN-2025-002", "Priya Sharma", 26, "9876543211", "A", Positive,
                    Some("2025-03-15"), Some("2025-12-22"), Some(24), Low, Some("2025-07-05"),
                    Some("2025-07-19"), Active)
  }

  function LakshmiItem(): PatientListItem {
    PatientListItem("WMN-2025-003", "Lakshmi Devi", 32, "9876543212", "B", Negative,
                    Some("2025-02-20"), Some("2025-11-27"), Some(28), Medium, Some("2025-07-08"),
                    Some("2025-07-22"), Active)
  }

  function AnanyaItem(): PatientListItem {
    PatientListItem("WMN-2025-004", "Ananya Reddy", 28, "9876543213", "AB", Positive,
                    Some("2025-05-10"), Some("2026-02-14"), Some(10), Low, Some("2025-07-01"),
                    Some("2025-07-29"), Active)
  }

  function MeeraItem(): PatientListItem {
    PatientListItem("WMN-2025-005", "Meera Krishnan", 35, "9876543214", "O", Negative,
                    Some("2025-01-05"), Some("2025-10-12"), Some(36), High, Some("2025-07-12"),
                    Some("2025-07-19"), Active)
  }

  function SunitaItem(): PatientListItem {
    PatientListItem("WMN-2024-098", "Sunita Patel", 30, "9876543215", "A", Positive, None, None,
                    None, Low, Some("2025-06-15"), None, Delivered)
  }

  function KavithaItem(): PatientListItem {
    PatientListItem("WMN-2024-087", "Kavitha Nair", 27, "9876543216", "B", Positive, None, None,
                    None, Low, Some("2025-05-20"), None, Closed)
  }

  /** `patientsList`. */
  function PatientsList(): seq<PatientListItem> {
    [ChaitraItem(), PriyaItem(), LakshmiItem(), AnanyaItem(), MeeraItem(), SunitaItem(),
     KavithaItem()]
  }

  /** `getPatientByUhid`: only Chaitra has a full record. */
  function GetPatientByUhid(uhid: string): (r: Option<Patient>)
    ensures r.Some? <==> uhid == ChaitraUhid
    ensures r.Some? ==> r.value.profile.uhid == uhid
  {
    if uhid == ChaitraUhid then Some(Chaitra()) else None
  }

  /** `createNewVisit(template)`, with the generated id and today's date
      supplied by the caller. */
  function CreateNewVisit(id: string, today: string, template: Template): (r: VisitRecord)
    ensures r.template == template && !r.pallor && !r.pedalEdema
    ensures r.id == id && r.date == today
    ensures r.complaints.None? && r.weight.None? && r.remarks.None? && r.seenBy.None?
  {
    VisitRecord(id, today, template, None, None, None, None, None, None, None, None, false, false,
                None, None, None, None, None, None)
  }

  // ---------------------------------------------------------------------
  // properties

  /** The lookup of Chaitra's UHID gives her record. */
  lemma LookupChaitra()
    ensures GetPatientByUhid(ChaitraUhid) == Some(Chaitra())
  {
  }

  /** No two directory rows share a UHID. */
  lemma DirectoryUhidsDistinct()
    ensures forall i, j :: 0 <= i < j < |PatientsList()| ==> PatientsList()[i].uhid != PatientsList()[j].uhid
  {
  }

  /** Exactly one directory row, the first, has a full record. */
  lemma OneFullRecord()
    ensures forall i :: 0 <= i < |PatientsList()| ==>
              (GetPatientByUhid(PatientsList()[i].uhid).Some? <==> i == 0)
  {
    DirectoryUhidsDistinct();
  }
}
