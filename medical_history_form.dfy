/** The medical-history editor: three sections of flags (and the surgery
    text), each entry set by `updateField(section, key, value)`. */
module MedicalHistoryForm {
  import opened Json

  datatype Section = PastHistory | FamilyHistory | PersonalHabits

  /** The data of the form; every section is keyed by entry name. */
  datatype Data = Data(pastHistory: Record, familyHistory: Record, personalHabits: Record)

  function SectionOf(d: Data, s: Section): Record {
    match s
    case PastHistory => d.pastHistory
    case FamilyHistory => d.familyHistory
    case PersonalHabits => d.personalHabits
  }

  /** `createEmptyMedicalHistory()`. */
  function EmptyMedicalHistory(): Data {
    Data(
      map["diabetes" := Bool(false), "hypertension" := Bool(false), "thyroid" := Bool(false),
          "migraine" := Bool(false), "cardiac" := Bool(false), "epilepsy" := Bool(false),
          "asthma" := Bool(false), "tb" := Bool(false), "bloodTransfusion" := Bool(false),
          "surgery" := Str(""), "thromboembolism" := Bool(false),
          "psychiatricProblems" := Bool(false)],
      map["diabetes" := Bool(false), "hypertension" := Bool(false), "thyroid" := Bool(false),
          "stroke" := Bool(false), "tb" := Bool(false), "cancers" := Bool(false),
          "twins" := Bool(false), "mentallyChallenged" := Bool(false)],
      map["smoking" := Bool(false), "alcohol" := Bool(false), "consanguinity" := Bool(false),
          "psychologicalStress" := Bool(false)])
  }

  /** `{ ...prev, [section]: { ...prev[section], [key]: value } }`. */
  function Updated(d: Data, s: Section, key: string, value: Value): Data {
    match s
    case PastHistory => d.(pastHistory := d.pastHistory[key := value])
    case FamilyHistory => d.(familyHistory := d.familyHistory[key := value])
    case PersonalHabits => d.(personalHabits := d.personalHabits[key := value])
  }

  // ---------------------------------------------------------------------
  // properties

  /** The initial record has every entry false except `surgery`, which is
      the empty text. */
  lemma EmptyAllClear(s: Section, k: string)
    requires k in SectionOf(EmptyMedicalHistory(), s)
    ensures SectionOf(EmptyMedicalHistory(), s)[k] ==
              if s == PastHistory && k == "surgery" then Str("") else Bool(false)
  {
  }

  /** After `updateField(s, k, v)` the entry reads `v`; every other entry of
      the section and the other two sections are as before. */
  lemma UpdatedRule(d: Data, s: Section, key: string, value: Value)
    ensures var r := Updated(d, s, key, value);
            && key in SectionOf(r, s) && SectionOf(r, s)[key] == value
            && SectionOf(r, s).Keys == SectionOf(d, s).Keys + {key}
            && (forall k :: k in SectionOf(d, s) && k != key ==> SectionOf(r, s)[k] == SectionOf(d, s)[k])
            && forall t :: t != s ==> SectionOf(r, t) == SectionOf(d, t)
  {
  }

  /** Applying the same update twice is applying it once. */
  lemma UpdatedIdempotent(d: Data, s: Section, key: string, value: Value)
    ensures Updated(Updated(d, s, key, value), s, key, value) == Updated(d, s, key, value)
  {
    match s
    case PastHistory =>
      assert d.pastHistory[key := value][key := value] == d.pastHistory[key := value];
    case FamilyHistory =>
      assert d.familyHistory[key := value][key := value] == d.familyHistory[key := value];
    case PersonalHabits =>
      assert d.personalHabits[key := value][key := value] == d.personalHabits[key := value];
  }

  /** Updates of different entries commute. */
  lemma UpdatedCommute(d: Data, s: Section, k1: string, v1: Value, t: Section, k2: string, v2: Value)
    requires s != t || k1 != k2
    ensures Updated(Updated(d, s, k1, v1), t, k2, v2) == Updated(Updated(d, t, k2, v2), s, k1, v1)
  {
    if s == t {
      match s
      case PastHistory =>
        assert d.pastHistory[k1 := v1][k2 := v2] == d.pastHistory[k2 := v2][k1 := v1];
      case FamilyHistory =>
        assert d.familyHistory[k1 := v1][k2 := v2] == d.familyHistory[k2 := v2][k1 := v1];
      case PersonalHabits =>
        assert d.personalHabits[k1 := v1][k2 := v2] == d.personalHabits[k2 := v2][k1 := v1];
    }
  }

  // ---------------------------------------------------------------------
  // the component

  class Editor {
    var data: Data
    var isEditing: bool

    constructor()
      ensures data == EmptyMedicalHistory() && !isEditing
    {
      data := EmptyMedicalHistory();
      isEditing := false;
    }

    /** The Edit button. */
    method StartEditing()
      modifies this
      ensures isEditing && data == old(data)
    {
      isEditing := true;
    }

    /** Save only leaves edit mode; the data stays as edited. */
    method Save()
      modifies this
      ensures !isEditing && data == old(data)
    {
      isEditing := false;
    }

    /** Cancel only leaves edit mode: the edits are not reverted. */
    method Cancel()
      modifies this
      ensures !isEditing && data == old(data)
    {
      isEditing := false;
    }

    method UpdateField(s: Section, key: string, value: Value)
      modifies this
      ensures data == Updated(old(data), s, key, value) && isEditing == old(isEditing)
    {
      data := Updated(data, s, key, value);
    }
  }
}
