/** The gynaecology visit editor: a list of saved visits, one visit being
    edited, a copy-on-path dotted update with the automatic BMI, an
    upsert-by-id save, and the empty / list / form views. */
module GynecologyForm {
  import opened Wrappers
  import opened Text
  import opened Json

  // ---------------------------------------------------------------------
  // the empty visit

  function PastMedicalHistory(): Record {
    map["diabetes" := Bool(false), "hypertension" := Bool(false),
        "thyroidDysfunction" := Bool(false), "migraine" := Bool(false), "cardiac" := Bool(false),
        "epilepsy" := Bool(false), "asthma" := Bool(false), "tb" := Bool(false),
        "bloodTransfusion" := Bool(false), "surgery" := Str(""),
        "thromboembolism" := Bool(false)]
  }

  function FamilyHistory(): Record {
    map["diabetes" := Bool(false), "hypertension" := Bool(false),
        "thyroidDysfunction" := Bool(false), "tb" := Bool(false), "cancers" := Str(""),
        "ihdCva" := Bool(false), "thromboembolism" := Bool(false),
        "psychiatricProblems" := Bool(false)]
  }

  function PersonalHistory(): Record {
    map["allergies" := Str(""), "smoking" := Bool(false), "alcohol" := Bool(false),
        "psychStress" := Bool(false)]
  }

  function PhysicalExam(): Record {
    map["height" := Num(0.0), "weight" := Num(0.0), "bmi" := Num(0.0), "pallor" := Bool(false),
        "goiter" := Bool(false), "pulse" := Num(0.0), "bpSystolic" := Num(0.0),
        "bpDiastolic" := Num(0.0), "cvs" := Str(""), "breasts" := Str(""), "rs" := Str(""),
        "perAbdomen" := Str("")]
  }

  function VaginalExam(): Record {
    map["vulvaVagina" := Str(""), "cervix" := Str(""), "uterus" := Str(""), "adnexa" := Str("")]
  }

  /** Every field of a visit except its id, date, name and age. */
  function EmptyVisit(): Record {
    map["lmp" := Str(""), "para" := Str(""), "contraception" := Str(""),
        "previousSmear" := Str(""), "menstrualCycles" := Str(""),
        "presentingComplaints" := Str(""), "micturition" := Str(""), "bowels" := Str(""),
        "pastMedicalHistory" := Obj(PastMedicalHistory()),
        "familyHistory" := Obj(FamilyHistory()),
        "personalHistory" := Obj(PersonalHistory()),
        "medications" := Str(""),
        "physicalExam" := Obj(PhysicalExam()),
        "vaginalExam" := Obj(VaginalExam()),
        "impression" := Str(""), "advice" := Str(""), "doctorSignature" := Str("")]
  }

  /** `{ id, date, name, age, ...createEmptyVisit() }`: the later spread
      wins on a shared key. */
  function NewVisit(id: string, date: string, name: string, age: int): Record {
    map["id" := Str(id), "date" := Str(date), "name" := Str(name), "age" := Num(age as real)]
      + EmptyVisit()
  }

  /** An empty text, a zero or false. */
  predicate IsBlank(v: Value) {
    v == Str("") || v == Num(0.0) || v == Bool(false)
  }

  /** A blank value, or an object of blank values. */
  predicate IsBlankSection(v: Value) {
    IsBlank(v) || (v.Obj? && forall k :: k in v.fields ==> IsBlank(v.fields[k]))
  }

  // ---------------------------------------------------------------------
  // copy-on-path update with the BMI

  const WeightKeys: seq<string> := ["physicalExam", "weight"]
  const HeightKeys: seq<string> := ["physicalExam", "height"]
  const BmiKeys: seq<string> := ["physicalExam", "bmi"]

  /** The visit after `updateField(path, value)`: every object on the path
      copied (an empty one where nothing was there), the leaf set, then the
      BMI for a height or weight path. */
  function GyneUpdate(visit: Record, path: string, value: Value): Record {
    var keys := Split(path, '.');
    var u := CopyAssign(visit, keys, value);
    if IsBmiTrigger("physicalExam", keys) then
      assert keys[0] in u;
      WithBmi(u, "physicalExam").value
    else u
  }

  /** `spine[j + 1]` is the copy made of what sat under `keys[j]` in `spine[j]`. */
  predicate CopyChain(spine: seq<Record>, keys: seq<string>, n: int) {
    0 <= n < |spine| && n <= |keys|
    && forall j :: 0 <= j < n ==> spine[j + 1] == Spread(Get(spine[j], keys[j]))
  }

  /** The loop of `updateField`: copy each object on the path, set the leaf,
      and put the copies back in place on the way up. */
  method CopyAssignPath(root: Record, keys: seq<string>, v: Value) returns (r: Record)
    requires |keys| >= 1
    ensures r == CopyAssign(root, keys, v)
  {
    var spine := [root];
    var i := 0;
    while i < |keys| - 1
      invariant i <= |keys| - 1 && |spine| == i + 1 && spine[0] == root
      invariant CopyChain(spine, keys, i)
    {
      CopyChainGrows(spine, keys, i);
      spine := spine + [Spread(Get(spine[i], keys[i]))];
      i := i + 1;
    }
    r := spine[i][keys[i] := v];
    assert keys[i..] == [keys[i]];
    while i > 0
      invariant 0 <= i < |keys| && |spine| == |keys| && CopyChain(spine, keys, |keys| - 1)
      invariant CopyAssign(spine[i], keys[i..], v) == r
    {
      i := i - 1;
      CopyStepUp(spine, keys, i, v, r);
      r := spine[i][keys[i] := Obj(r)];
    }
    assert keys[0..] == keys;
  }

  /** One step down the copy loop: the copy of the next object extends the
      chain. */
  lemma CopyChainGrows(spine: seq<Record>, keys: seq<string>, i: nat)
    requires i < |keys| && |spine| == i + 1 && CopyChain(spine, keys, i)
    ensures CopyChain(spine + [Spread(Get(spine[i], keys[i]))], keys, i + 1)
  {
  }

  /** One step up the copy loop: putting the copy below back into the copy
      of step `i` is the copy-on-path assignment from step `i`. */
  lemma CopyStepUp(spine: seq<Record>, keys: seq<string>, i: nat, v: Value, r: Record)
    requires i < |keys| - 1 && |spine| == |keys| && CopyChain(spine, keys, |keys| - 1)
    requires CopyAssign(spine[i + 1], keys[i + 1..], v) == r
    ensures CopyAssign(spine[i], keys[i..], v) == spine[i][keys[i] := Obj(r)]
  {
    assert keys[i..][0] == keys[i] && keys[i..][1..] == keys[i + 1..];
  }

  // ---------------------------------------------------------------------
  // save

  /** The two visits carry the same id (`v.id === currentVisit.id`). */
  predicate SameId(a: Record, b: Record) {
    Get(a, "id") == Get(b, "id")
  }

  predicate HasVisitWithId(visits: seq<Record>, v: Record) {
    exists i :: 0 <= i < |visits| && SameId(visits[i], v)
  }

  /** `handleSave`'s list update: replace the visits with the same id, or
      append the visit when none has it. */
  function Upsert(visits: seq<Record>, v: Record): (r: seq<Record>)
    ensures |r| >= 1
  {
    if HasVisitWithId(visits, v) then
      seq(|visits|, i requires 0 <= i < |visits| => if SameId(visits[i], v) then v else visits[i])
    else visits + [v]
  }

  /** No two visits share an id. */
  predicate DistinctIds(visits: seq<Record>) {
    forall i, j :: 0 <= i < j < |visits| ==> !SameId(visits[i], visits[j])
  }

  // ---------------------------------------------------------------------
  // the three views

  datatype View = EmptyState | VisitList | VisitForm

  function ViewOf(isEditing: bool, visits: seq<Record>): View {
    if !isEditing && |visits| == 0 then EmptyState
    else if !isEditing then VisitList
    else VisitForm
  }

  // ---------------------------------------------------------------------
  // properties of the new visit

  /** The sections of an empty visit hold only empty texts, zeros and
      falses. */
  lemma EmptyVisitBlank()
    ensures forall k :: k in EmptyVisit() ==> IsBlankSection(EmptyVisit()[k])
  {
    SectionsBlank();
  }

  /** The five nested sections of an empty visit are blank. */
  lemma SectionsBlank()
    ensures IsBlankSection(Obj(PastMedicalHistory())) && IsBlankSection(Obj(FamilyHistory()))
    ensures IsBlankSection(Obj(PersonalHistory())) && IsBlankSection(Obj(PhysicalExam()))
    ensures IsBlankSection(Obj(VaginalExam()))
  {
  }

  /** The empty visit does not hold the four fields set from the caller. */
  lemma EmptyVisitLeavesHeader()
    ensures "id" !in EmptyVisit() && "date" !in EmptyVisit()
    ensures "name" !in EmptyVisit() && "age" !in EmptyVisit()
  {
  }

  /** A new visit has the given id and date, the patient's name and age,
      and every other field empty, zero or false. */
  lemma NewVisitRule(id: string, date: string, name: string, age: int)
    ensures var r := NewVisit(id, date, name, age);
            && Get(r, "id") == Some(Str(id)) && Get(r, "date") == Some(Str(date))
            && Get(r, "name") == Some(Str(name)) && Get(r, "age") == Some(Num(age as real))
            && forall k :: k in r && k !in {"id", "date", "name", "age"} ==> IsBlankSection(r[k])
  {
    EmptyVisitLeavesHeader();
    EmptyVisitBlank();
  }

  // ---------------------------------------------------------------------
  // properties of the update

  /** After `updateField(path, value)` the path reads `value`, whatever was
      on the way: missing or non-object steps become objects. */
  lemma GyneUpdateSetsLeaf(visit: Record, path: string, value: Value)
    ensures Find(Obj(GyneUpdate(visit, path, value)), Split(path, '.')) == Some(value)
  {
    var keys := Split(path, '.');
    var u := CopyAssign(visit, keys, value);
    CopyAssignFind(visit, keys, value);
    if IsBmiTrigger("physicalExam", keys) {
      assert u["physicalExam"].Obj?;
      WithBmiRule(u, "physicalExam");
      FindTwo(u, "physicalExam", keys[1]);
      FindTwo(GyneUpdate(visit, path, value), "physicalExam", keys[1]);
    }
  }

  /** Where every step of the path already is an object, the copy-on-path
      update keeps every path apart from it, except the BMI after a height
      or weight update. */
  lemma GyneUpdateKeepsApart(visit: Record, path: string, value: Value, q: seq<string>)
    requires Assign(visit, Split(path, '.'), value).Some?
    requires Apart(Split(path, '.'), q)
    requires IsBmiTrigger("physicalExam", Split(path, '.')) ==> Apart(q, BmiKeys)
    ensures Find(Obj(GyneUpdate(visit, path, value)), q) == Find(Obj(visit), q)
  {
    var keys := Split(path, '.');
    CopyAssignAgrees(visit, keys, value);
    AssignApart(visit, keys, value, q);
    var u := CopyAssign(visit, keys, value);
    if IsBmiTrigger("physicalExam", keys) {
      WithBmiAssigns(u, "physicalExam");
      var f := u["physicalExam"].fields;
      var h := Get(f, "height");
      var w := Get(f, "weight");
      if IsPositive(h) && IsPositive(w) {
        AssignApart(u, BmiKeys, Num(Bmi(h.value.num, w.value.num)), q);
      }
    }
  }

  /** Unlike the ANC walk, the copy-on-path update succeeds where a step of
      the path is missing: the leaf is set where the ANC update throws. */
  lemma CopyWhereWalkFails(visit: Record, keys: seq<string>, value: Value)
    requires |keys| >= 1
    requires Assign(visit, keys, value).None?
    ensures Find(Obj(CopyAssign(visit, keys, value)), keys) == Some(value)
    ensures var parent := Find(Obj(visit), keys[..|keys| - 1]); !(parent.Some? && parent.value.Obj?)
  {
    CopyAssignFind(visit, keys, value);
    AssignSucceeds(visit, keys, value);
  }

  /** The BMI rule: after a height or weight update, `physicalExam.bmi` is
      the BMI of the new height and weight when both are positive, and
      otherwise what the copy holds, which is the earlier value when there
      was one. */
  lemma GyneBmiRule(visit: Record, path: string, value: Value)
    requires IsBmiTrigger("physicalExam", Split(path, '.'))
    ensures var u := GyneUpdate(visit, path, value);
            var h := Find(Obj(u), HeightKeys);
            var w := Find(Obj(u), WeightKeys);
            Find(Obj(u), BmiKeys) ==
              if IsPositive(h) && IsPositive(w) then Some(Num(Bmi(h.value.num, w.value.num)))
              else Get(Spread(Get(visit, "physicalExam")), "bmi")
  {
    var keys := Split(path, '.');
    var u0 := CopyAssign(visit, keys, value);
    assert keys[1..] == [keys[1]];
    var f0 := Spread(Get(visit, "physicalExam"))[keys[1] := value];
    assert u0["physicalExam"] == Obj(f0);
    var u := GyneUpdate(visit, path, value);
    WithBmiRule(u0, "physicalExam");
    FindTwo(u, "physicalExam", "height");
    FindTwo(u, "physicalExam", "weight");
    FindTwo(u, "physicalExam", "bmi");
  }

  // ---------------------------------------------------------------------
  // properties of save and the views

  /** Saving a visit whose id is already listed replaces it in place: the
      length and the other visits stay as they were. */
  lemma UpsertReplaces(visits: seq<Record>, v: Record)
    requires HasVisitWithId(visits, v)
    ensures var r := Upsert(visits, v);
            && |r| == |visits|
            && (forall i :: 0 <= i < |visits| && SameId(visits[i], v) ==> r[i] == v)
            && (forall i :: 0 <= i < |visits| && !SameId(visits[i], v) ==> r[i] == visits[i])
  {
  }

  /** Saving a visit with a new id appends it after the others. */
  lemma UpsertAppends(visits: seq<Record>, v: Record)
    requires !HasVisitWithId(visits, v)
    ensures Upsert(visits, v) == visits + [v]
  {
  }

  /** After a save the visit is in the list, and saving it again changes
      nothing. */
  lemma UpsertHoldsVisit(visits: seq<Record>, v: Record)
    ensures v in Upsert(visits, v)
    ensures Upsert(Upsert(visits, v), v) == Upsert(visits, v)
  {
    var r := Upsert(visits, v);
    if HasVisitWithId(visits, v) {
      var i :| 0 <= i < |visits| && SameId(visits[i], v);
      assert r[i] == v;
    } else {
      assert r[|visits|] == v;
    }
    var i :| 0 <= i < |r| && r[i] == v;
    assert SameId(r[i], v);
  }

  /** Saving keeps the ids of the list distinct. */
  lemma UpsertKeepsDistinct(visits: seq<Record>, v: Record)
    requires DistinctIds(visits)
    ensures DistinctIds(Upsert(visits, v))
  {
    var r := Upsert(visits, v);
    if HasVisitWithId(visits, v) {
      forall i, j | 0 <= i < j < |r|
        ensures !SameId(r[i], r[j])
      {
      }
    } else {
      forall i, j | 0 <= i < j < |r|
        ensures !SameId(r[i], r[j])
      {
        if j == |visits| {
          assert r[i] == visits[i];
        }
      }
    }
  }

  // ---------------------------------------------------------------------
  // the component

  class Editor {
    const patientName: string
    const patientAge: int
    var visits: seq<Record>
    var currentVisit: Option<Record>
    var isEditing: bool

    /** Editing happens exactly while there is a visit being edited. */
    ghost predicate Valid()
      reads this
    {
      isEditing <==> currentVisit.Some?
    }

    /** The screen the component renders: the empty state, the list or the
        form. */
    function View(): (r: View)
      reads this
      ensures r == EmptyState <==> !isEditing && visits == []
      ensures r == VisitList <==> !isEditing && visits != []
      ensures r == VisitForm <==> isEditing
    {
      ViewOf(isEditing, visits)
    }

    constructor(patientName: string, patientAge: int)
      ensures this.patientName == patientName && this.patientAge == patientAge
      ensures visits == [] && currentVisit == None && !isEditing
      ensures Valid() && View() == EmptyState
    {
      this.patientName := patientName;
      this.patientAge := patientAge;
      visits := [];
      currentVisit := None;
      isEditing := false;
    }

    /** The Add Visit button. */
    method NewVisitClicked(id: string, today: string)
      modifies this
      ensures currentVisit == Some(NewVisit(id, today, patientName, patientAge))
      ensures isEditing && visits == old(visits)
      ensures Valid() && View() == VisitForm
    {
      currentVisit := Some(NewVisit(id, today, patientName, patientAge));
      isEditing := true;
    }

    /** A click on a listed visit: it becomes the visit being edited. */
    method OpenVisit(i: nat)
      requires i < |visits|
      modifies this
      ensures visits == old(visits) && currentVisit == Some(old(visits)[i]) && isEditing
      ensures Valid() && View() == VisitForm
    {
      currentVisit := Some(visits[i]);
      isEditing := true;
    }

    /** `handleSave`: the visit goes into the list and editing ends; with no
        visit being edited, nothing happens. */
    method Save()
      requires Valid()
      modifies this
      ensures old(currentVisit).None? ==>
                visits == old(visits) && currentVisit == None && isEditing == old(isEditing)
      ensures old(currentVisit).Some? ==>
                visits == Upsert(old(visits), old(currentVisit).value)
                && currentVisit == None && !isEditing && View() == VisitList
      ensures old(isEditing) ==> visits == Upsert(old(visits), old(currentVisit).value)
      ensures Valid()
    {
      if currentVisit.None? {
        return;
      }
      visits := Upsert(visits, currentVisit.value);
      isEditing := false;
      currentVisit := None;
    }

    /** `handleCancel`: the visit being edited is dropped; the list is kept. */
    method Cancel()
      modifies this
      ensures currentVisit == None && !isEditing && visits == old(visits)
      ensures Valid() && View() == (if visits == [] then EmptyState else VisitList)
    {
      isEditing := false;
      currentVisit := None;
    }

    /** `updateField(path, value)`: only the visit being edited changes; the
        saved visits are untouched. */
    method UpdateField(path: string, value: Value)
      requires Valid()
      modifies this
      ensures currentVisit == (if old(currentVisit).None? then None
                               else Some(GyneUpdate(old(currentVisit).value, path, value)))
      ensures visits == old(visits) && isEditing == old(isEditing)
      ensures isEditing ==> currentVisit.Some?
      ensures Valid()
    {
      if currentVisit.None? {
        return;
      }
      var keys := Split(path, '.');
      var updated := CopyAssignPath(currentVisit.value, keys, value);
      if IsBmiTrigger("physicalExam", keys) {
        assert keys[0] in updated;
        updated := WithBmi(updated, "physicalExam").value;
      }
      currentVisit := Some(updated);
    }
  }
}
