/** The patient record shared by the screens: profile, obstetric summary,
    past pregnancies, histories, lab results and visits. An optional field
    is an Option; a history object is the list of its entries in
    declaration order, as `Object.entries` lists them. */
module Types {
  import opened Wrappers

  datatype RhStatus = Positive | Negative

  datatype PatientProfile = PatientProfile(
    uhid: string,
    name: string,
    age: int,
    dob: Option<string>,
    occupation: Option<string>,
    spouseName: Option<string>,
    spouseOccupation: Option<string>,
    address: string,
    mobile: string,
    allergies: seq<string>,
    bloodGroup: string,
    rhStatus: RhStatus,
    husbandBloodGroup: Option<string>)

  datatype MenstrualCycle = Regular | Irregular

  datatype PapSmear = Nil | Normal | Abnormal

  datatype ObstetricHistory = ObstetricHistory(
    gravida: int,
    para: int,
    living: int,
    abortion: int,
    lmp: string,
    edd: string,
    scanEdd: Option<string>,
    menstrualCycle: MenstrualCycle,
    riskFactors: seq<string>,
    planForManagement: Option<string>,
    previousContraception: Option<string>,
    papSmear: PapSmear,
    marriedLife: Option<string>)

  datatype Sex = M | F

  datatype PastObstetricEntry = PastObstetricEntry(
    no: int,
    year: int,
    antenatal: string,
    deliveryMode: string,
    sex: Option<Sex>,
    weight: Option<real>,
    remarks: Option<string>)

  /** A history entry's value: a flag, a text, or `null`. */
  datatype HistoryValue = Flag(flag: bool) | Note(text: string) | Null

  /** A history object as its key/value entries. */
  type HistoryEntries = seq<(string, HistoryValue)>

  datatype LabResults = LabResults(
    hb: Option<real>, pcv: Option<real>, platelets: Option<real>, fbsRbs: Option<real>,
    gctGtt: Option<string>, tsh: Option<real>, rubellaIgG: Option<string>,
    vdrl: Option<string>, hiv: Option<string>, hbsAg: Option<string>, ict: Option<string>,
    urine: Option<string>, hba1c: Option<real>)

  datatype Template = ANC | GYNE | GENERAL

  datatype VisitRecord = VisitRecord(
    id: string,
    date: string,
    template: Template,
    complaints: Option<string>,
    weight: Option<real>,
    bpSystolic: Option<real>,
    bpDiastolic: Option<real>,
    weeksFromLmp: Option<real>,
    sfh: Option<real>,
    fetalHeartRate: Option<real>,
    fetalPosition: Option<string>,
    pallor: bool,
    pedalEdema: bool,
    pvExam: Option<string>,
    urineAlbumin: Option<string>,
    urineSugar: Option<string>,
    remarks: Option<string>,
    nextVisitDate: Option<string>,
    seenBy: Option<string>)

  datatype Patient = Patient(
    profile: PatientProfile,
    obstetricHistory: ObstetricHistory,
    pastObstetricHistory: seq<PastObstetricEntry>,
    medicalHistory: HistoryEntries,
    familyHistory: HistoryEntries,
    personalHistory: HistoryEntries,
    presentMedication: Option<string>,
    comments: Option<string>,
    labResults: LabResults,
    visits: seq<VisitRecord>)

  datatype RiskLevel = Low | Medium | High

  datatype Status = Active | Delivered | Closed

  /** A row of the patient directory. */
  datatype PatientListItem = PatientListItem(
    uhid: string,
    name: string,
    age: int,
    mobile: string,
    bloodGroup: string,
    rhStatus: RhStatus,
    lmp: Option<string>,
    edd: Option<string>,
    weeksPregnant: Option<int>,
    riskLevel: RiskLevel,
    lastVisit: Option<string>,
    nextVisit: Option<string>,
    status: Status)
}
