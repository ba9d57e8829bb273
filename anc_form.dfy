/** The ANC (antenatal care) case editor: one case record per patient, edited
    field by field through dotted paths, with BMI and EDD derived on the fly,
    follow-up visits and past pregnancies appended, and collapsible sections. */
module AncForm {
  import opened Wrappers
  import opened Text
  import opened Json
  import opened Dates

  datatype AncTab = Booking | History | ObHistory | FollowUp | Investigations | Delivery

  // ---------------------------------------------------------------------
  // the empty case

  function ObstetricStatus(): Record {
    map["lmp" := Str(""), "edd" := Str(""), "scanEdd" := Str(""), "gravida" := Num(1.0),
        "para" := Num(0.0), "living" := Num(0.0), "abortions" := Num(0.0),
        "riskFactors" := Str(""), "menstrualCycle" := Str(""), "previousContraception" := Str(""),
        "papSmear" := Str(""), "marriedLifeDuration" := Str("")]
  }

  function PastHistory(): Record {
    map["diabetes" := Bool(false), "hypertension" := Bool(false), "thyroid" := Bool(false),
        "migraine" := Bool(false), "cardiac" := Bool(false), "epilepsy" := Bool(false),
        "asthma" := Bool(false), "tb" := Bool(false), "bloodTransfusion" := Bool(false),
        "surgery" := Str(""), "thromboembolism" := Bool(false),
        "psychiatricProblems" := Bool(false)]
  }

  function FamilyHistory(): Record {
    map["diabetes" := Bool(false), "hypertension" := Bool(false), "thyroid" := Bool(false),
        "stroke" := Bool(false), "tb" := Bool(false), "cancers" := Bool(false),
        "twins" := Bool(false), "mentallyChallenged" := Bool(false)]
  }

  function PersonalHabits(): Record {
    map["smoking" := Bool(false), "alcohol" := Bool(false), "consanguinity" := Bool(false),
        "psychologicalStress" := Bool(false)]
  }

  function BaselineTests(): Record {
    map["hb" := Str(""), "pcv" := Str(""), "platelets" := Str(""), "fbsRbs" := Str(""),
        "gctGtt" := Str(""), "tsh" := Str(""), "rubellaIgG" := Str(""), "hiv" := Str(""),
        "hbsAg" := Str(""), "vdrl" := Str(""), "urineAnalysis" := Str(""), "hba1c" := Str("")]
  }

  function UsgTracking(): Record {
    map["datingScanDate" := Str(""), "scan11_13WeeksDate" := Str(""),
        "combinedScreeningDate" := Str(""), "anomalyScanDate" := Str("")]
  }

  function Vaccinations(): Record {
    map["tdVaccineDate" := Str(""), "tdapVaccineDate" := Str(""), "ictDate" := Str(""),
        "antiDDate" := Str("")]
  }

  function BookingVisit(today: string): Record {
    map["bookingDate" := Str(today), "height" := Num(0.0), "weight" := Num(0.0),
        "bmi" := Num(0.0), "thyroidExam" := Str(""), "breastExam" := Str(""),
        "cvsExam" := Str(""), "rsExam" := Str(""), "perAbdomenFindings" := Str("")]
  }

  function DeliveryOutcome(): Record {
    map["dateOfDelivery" := Str(""), "sexOfBaby" := Str(""), "modeOfDelivery" := Str(""),
        "birthWeight" := Str(""), "indicationForCS" := Str(""), "perinealTear" := Str(""),
        "complications" := Str("")]
  }

  function PostnatalCare(): Record {
    map["checklist" := Obj(map["diabetes" := Bool(false), "hypertension" := Bool(false),
                               "thyroid" := Bool(false), "moodDepression" := Bool(false)]),
        "examination" := Obj(map["bp" := Str(""), "pallor" := Bool(false), "breasts" := Str(""),
                                 "perAbdomen" := Str(""), "perineum" := Str("")]),
        "contraceptionAdvice" := Bool(false),
        "nextCheckupDate" := Str("")]
  }

  /** A fresh case: the patient's name and age, gravida 1, every other count
      0, every flag false, every text empty, no visits or past pregnancies,
      and a booking date of `today`. */
  function EmptyAncCase(id: string, patientName: string, patientAge: int, today: string): Record
  {
    map[
      "id" := Str(id),
      "patientName" := Str(patientName),
      "patientAge" := Num(patientAge as real),
      "obstetricStatus" := Obj(ObstetricStatus()),
      "pastObstetricHistory" := Arr([]),
      "pastHistory" := Obj(PastHistory()),
      "familyHistory" := Obj(FamilyHistory()),
      "personalHabits" := Obj(PersonalHabits()),
      "baselineTests" := Obj(BaselineTests()),
      "followUpTests" := Arr([]),
      "usgTracking" := Obj(UsgTracking()),
      "vaccinations" := Obj(Vaccinations()),
      "bookingVisit" := Obj(BookingVisit(today)),
      "followUpVisits" := Arr([]),
      "deliveryOutcome" := Obj(DeliveryOutcome()),
      "postnatalCare" := Obj(PostnatalCare())]
  }

  /** The sections shown open when the editor starts. */
  function InitialExpanded(): map<string, bool> {
    map["obstetric" := true, "pastOb" := true, "medical" := true, "baseline" := true,
        "usg" := true, "vaccines" := true, "booking" := true]
  }

  // ---------------------------------------------------------------------
  // dotted-path update with the derived fields

  /** The keys of the fields that take part in the derivations. */
  const WeightKeys: seq<string> := ["bookingVisit", "weight"]
  const HeightKeys: seq<string> := ["bookingVisit", "height"]
  const BmiKeys: seq<string> := ["bookingVisit", "bmi"]
  const LmpKeys: seq<string> := ["obstetricStatus", "lmp"]
  const EddKeys: seq<string> := ["obstetricStatus", "edd"]

  /** `updated.obstetricStatus.edd = ...` for an LMP value: None where the
      LMP is not a date (`toISOString` throws on an Invalid Date). */
  function WithEdd(u: Record, lmp: Value): Option<Record> {
    match lmp
    case Str(s) =>
      (match EddFromLmp(s)
       case None => None
       case Some(edd) => Assign(u, EddKeys, Str(edd)))
    case _ => None
  }

  /** The case after `updateField(path, value)`: the value written at the
      path in a deep copy, then the derived fields. None where any step
      throws, in which case the stored case is not replaced. */
  function AncUpdate(rec: Record, path: string, value: Value): Option<Record> {
    var keys := Split(path, '.');
    match Assign(rec, keys, value)
    case None => None
    case Some(u) => Derive(u, keys, value)
  }

  /** The derived fields written after the path: the BMI for a height or
      weight path, then the EDD for a non-empty LMP. */
  function Derive(u: Record, keys: seq<string>, value: Value): Option<Record> {
    match (if IsBmiTrigger("bookingVisit", keys) then WithBmi(u, "bookingVisit") else Some(u))
    case None => None
    case Some(u1) =>
      if keys == LmpKeys && Truthy(Some(value)) then WithEdd(u1, value) else Some(u1)
  }

  /** What the stored case becomes: unchanged when there is none or the
      update throws. */
  function UpdatedCase(c: Option<Record>, path: string, value: Value): Option<Record> {
    match c
    case None => None
    case Some(rec) =>
      match AncUpdate(rec, path, value)
      case None => c
      case Some(u) => Some(u)
  }

  // ---------------------------------------------------------------------
  // the walk through the deep copy

  /** `spine[j]` is the object reached after the first `j` keys. */
  predicate Chain(spine: seq<Record>, keys: seq<string>, n: int) {
    0 <= n < |spine| && n <= |keys|
    && forall j :: 0 <= j < n ==> keys[j] in spine[j] && spine[j][keys[j]] == Obj(spine[j + 1])
  }

  /** A walk that stops at a non-object before the last key fails as a whole. */
  lemma {:induction false} ChainFail(spine: seq<Record>, keys: seq<string>, n: int, j: int, v: Value)
    requires Chain(spine, keys, n) && n < |keys| - 1
    requires !(keys[n] in spine[n] && spine[n][keys[n]].Obj?)
    requires 0 <= j <= n
    ensures Assign(spine[j], keys[j..], v).None?
    decreases n - j
  {
    assert keys[j..][0] == keys[j] && keys[j..][1..] == keys[j + 1..];
    if j < n {
      ChainFail(spine, keys, n, j + 1, v);
    }
  }

  /** The walk of `updateField`: follow every key but the last through the
      copy, assign the last, and rebuild the objects on the way back up. */
  method AssignPath(root: Record, keys: seq<string>, v: Value) returns (r: Option<Record>)
    requires |keys| >= 1
    ensures r == Assign(root, keys, v)
  {
    var spine := [root];
    var i := 0;
    while i < |keys| - 1
      invariant i <= |keys| - 1 && |spine| == i + 1 && spine[0] == root
      invariant Chain(spine, keys, i)
    {
      var cur := spine[i];
      if !(keys[i] in cur && cur[keys[i]].Obj?) {
        ChainFail(spine, keys, i, 0, v);
        assert keys[0..] == keys;
        return None;
      }
      spine := spine + [cur[keys[i]].fields];
      i := i + 1;
    }
    var acc := spine[i][keys[i] := v];
    assert keys[i..] == [keys[i]];
    while i > 0
      invariant 0 <= i < |keys| && |spine| == |keys| && Chain(spine, keys, |keys| - 1)
      invariant Assign(spine[i], keys[i..], v) == Some(acc)
    {
      i := i - 1;
      assert keys[i..][0] == keys[i] && keys[i..][1..] == keys[i + 1..];
      acc := spine[i][keys[i] := Obj(acc)];
    }
    assert keys[0..] == keys;
    return Some(acc);
  }

  // ---------------------------------------------------------------------
  // list edits

  /** A follow-up visit with every measurement 0 and every text empty. */
  function NewFollowUpVisit(id: string, date: string): Value {
    Obj(map["id" := Str(id), "date" := Str(date), "complaints" := Str(""), "weight" := Num(0.0),
            "bpSystolic" := Num(0.0), "bpDiastolic" := Num(0.0), "weeksByLmp" := Num(0.0),
            "sfh" := Str(""), "fetalHeart" := Str(""), "presentation" := Str(""),
            "remarksPlan" := Str(""), "nextVisitDate" := Str(""), "seenBy" := Str("")])
  }

  /** `addFollowUpVisit`: one new visit appended after the existing ones. */
  function WithFollowUpVisit(rec: Record, id: string, date: string): (r: Option<Record>)
    ensures r.Some? <==> SpreadList(Get(rec, "followUpVisits")).Some?
  {
    match SpreadList(Get(rec, "followUpVisits"))
    case None => None
    case Some(visits) => Some(rec["followUpVisits" := Arr(visits + [NewFollowUpVisit(id, date)])])
  }

  /** The visit has the id `visitId`. */
  predicate HasId(v: Value, visitId: string) {
    v.Obj? && Get(v.fields, "id") == Some(Str(visitId))
  }

  /** One element of `updateFollowUpVisit`'s `map`. */
  function EditVisit(v: Value, visitId: string, field: string, value: Value): Value {
    if HasId(v, visitId) then Obj(v.fields[field := value]) else v
  }

  /** `updateFollowUpVisit`: every visit with the id gets `field` set; the
      rest stay as they are. None when the visits are not an array. */
  function WithUpdatedVisit(rec: Record, visitId: string, field: string, value: Value): (r: Option<Record>)
    ensures r.Some? <==> Get(rec, "followUpVisits").Some? && rec["followUpVisits"].Arr?
  {
    match Get(rec, "followUpVisits")
    case Some(Arr(visits)) =>
      Some(rec["followUpVisits" := Arr(seq(|visits|, i requires 0 <= i < |visits| =>
                                              EditVisit(visits[i], visitId, field, value)))])
    case _ => None
  }

  /** A past pregnancy numbered `n` with every text empty. */
  function NewPastEntry(n: int): Value {
    Obj(map["pregnancyNumber" := Num(n as real), "year" := Str(""), "antenatalCourse" := Str(""),
            "modeOfDelivery" := Str(""), "sexOfBaby" := Str(""), "birthWeight" := Str(""),
            "remarks" := Str("")])
  }

  /** `addPastObstetricEntry`: a new entry numbered one past the list length. */
  function WithPastEntry(rec: Record): (r: Option<Record>)
    ensures r.Some? <==> SpreadList(Get(rec, "pastObstetricHistory")).Some?
  {
    match SpreadList(Get(rec, "pastObstetricHistory"))
    case None => None
    case Some(entries) =>
      Some(rec["pastObstetricHistory" := Arr(entries + [NewPastEntry(|entries| + 1)])])
  }

  /** The inline edit of one cell of the past-pregnancy table: the row at
      `idx` is replaced by a copy with `key` set. */
  function WithPastRowEdit(rec: Record, idx: nat, key: string, text: string): (r: Record)
    requires "pastObstetricHistory" in rec && rec["pastObstetricHistory"].Arr?
    requires idx < |rec["pastObstetricHistory"].items|
    ensures r.Keys == rec.Keys
  {
    var rows := rec["pastObstetricHistory"].items;
    rec["pastObstetricHistory" := Arr(rows[idx := Obj(Spread(Some(rows[idx]))[key := Str(text)])])]
  }

  /** `{ ...prev, [section]: !prev[section] }`, an unknown section counting
      as closed. */
  function Toggled(expanded: map<string, bool>, section: string): (r: map<string, bool>)
    ensures section in r
    ensures r.Keys == expanded.Keys + {section}
  {
    expanded[section := !(section in expanded && expanded[section])]
  }

  predicate IsOpen(expanded: map<string, bool>, section: string) {
    section in expanded && expanded[section]
  }

  /** The cancel rule's test `!ancCase?.bookingVisit.bookingDate`: Some(true)
      when the case is to be dropped, None where reading the booking date
      throws because `bookingVisit` is missing. */
  function CancelDrops(c: Option<Record>): Option<bool> {
    match c
    case None => Some(true)
    case Some(rec) =>
      if "bookingVisit" !in rec then None
      else Some(!Truthy(Get(Spread(Some(rec["bookingVisit"])), "bookingDate")))
  }

  /** The stored case after a handler computed `next` from it: `next` when
      it exists, the old case when computing it threw. */
  function Replaced(c: Option<Record>, next: Option<Record>): Option<Record> {
    if next.Some? then next else c
  }

  // ---------------------------------------------------------------------
  // properties of the update

  /** The EDD derivation fires on exactly the path `obstetricStatus.lmp`. */
  lemma LmpTriggerPath(path: string)
    ensures Split(path, '.') == LmpKeys <==> path == "obstetricStatus.lmp"
  {
    SplitTwo(path, "obstetricStatus", "lmp");
  }

  /** Two-key paths that differ in the second key are apart. */
  lemma ApartSiblings(a: string, b: string, c: string)
    requires b != c
    ensures Apart([a, b], [a, c])
  {
    assert [a, b][..2] != [a, c] by { assert [a, b][1] != [a, c][1]; }
  }

  /** The derivation step keeps every path apart from the derived field it
      writes. */
  lemma DeriveKeepsApart(u: Record, keys: seq<string>, value: Value, q: seq<string>)
    requires Derive(u, keys, value).Some?
    requires IsBmiTrigger("bookingVisit", keys) ==> Apart(q, BmiKeys)
    requires keys == LmpKeys ==> Apart(q, EddKeys)
    ensures Find(Obj(Derive(u, keys, value).value), q) == Find(Obj(u), q)
  {
    var u1 := if IsBmiTrigger("bookingVisit", keys) then WithBmi(u, "bookingVisit").value else u;
    if IsBmiTrigger("bookingVisit", keys) && u["bookingVisit"].Obj? {
      WithBmiAssigns(u, "bookingVisit");
      var f := u["bookingVisit"].fields;
      var h := Get(f, "height");
      var w := Get(f, "weight");
      if IsPositive(h) && IsPositive(w) {
        AssignApart(u, BmiKeys, Num(Bmi(h.value.num, w.value.num)), q);
      }
    }
    if keys == LmpKeys && Truthy(Some(value)) {
      AssignApart(u1, EddKeys, Str(EddFromLmp(value.text).value), q);
    }
  }

  /** After `updateField(path, value)` the path reads `value`. */
  lemma AncUpdateSetsLeaf(rec: Record, path: string, value: Value)
    requires AncUpdate(rec, path, value).Some?
    ensures Find(Obj(AncUpdate(rec, path, value).value), Split(path, '.')) == Some(value)
  {
    var keys := Split(path, '.');
    AssignFind(rec, keys, value);
    if IsBmiTrigger("bookingVisit", keys) {
      ApartSiblings("bookingVisit", keys[1], "bmi");
      PrefixTail(keys, BmiKeys);
    } else if keys == LmpKeys {
      ApartSiblings("obstetricStatus", "lmp", "edd");
      PrefixTail(keys, EddKeys);
    }
    DeriveKeepsApart(Assign(rec, keys, value).value, keys, value, keys);
  }

  /** Every path apart from the updated one reads as before, except the BMI
      after a height or weight update and the EDD after an LMP update. */
  lemma AncUpdateKeepsApart(rec: Record, path: string, value: Value, q: seq<string>)
    requires AncUpdate(rec, path, value).Some?
    requires Apart(Split(path, '.'), q)
    requires IsBmiTrigger("bookingVisit", Split(path, '.')) ==> Apart(q, BmiKeys)
    requires Split(path, '.') == LmpKeys ==> Apart(q, EddKeys)
    ensures Find(Obj(AncUpdate(rec, path, value).value), q) == Find(Obj(rec), q)
  {
    var keys := Split(path, '.');
    AssignApart(rec, keys, value, q);
    DeriveKeepsApart(Assign(rec, keys, value).value, keys, value, q);
  }

  /** A walk through something that is not an object leaves no result, so
      the stored case stays as it was. */
  lemma AncUpdateFailsOffObject(rec: Record, path: string, value: Value)
    requires var keys := Split(path, '.');
             var parent := Find(Obj(rec), keys[..|keys| - 1]);
             !(parent.Some? && parent.value.Obj?)
    ensures AncUpdate(rec, path, value).None?
    ensures UpdatedCase(Some(rec), path, value) == Some(rec)
  {
    AssignSucceeds(rec, Split(path, '.'), value);
  }

  /** Editing the EDD by hand never changes the LMP. */
  lemma EddEditKeepsLmp(rec: Record, path: string, value: Value)
    requires Split(path, '.') == EddKeys && AncUpdate(rec, path, value).Some?
    ensures Find(Obj(AncUpdate(rec, path, value).value), LmpKeys) == Find(Obj(rec), LmpKeys)
  {
    ApartSiblings("obstetricStatus", "edd", "lmp");
    AncUpdateKeepsApart(rec, path, value, LmpKeys);
  }

  /** The BMI rule: after a height or weight update, `bookingVisit.bmi` is
      the BMI of the new height and weight when both are positive, and
      otherwise what it was before the update. */
  lemma AncBmiRule(rec: Record, path: string, value: Value)
    requires IsBmiTrigger("bookingVisit", Split(path, '.')) && AncUpdate(rec, path, value).Some?
    ensures var u := AncUpdate(rec, path, value).value;
            var h := Find(Obj(u), HeightKeys);
            var w := Find(Obj(u), WeightKeys);
            Find(Obj(u), BmiKeys) ==
              if IsPositive(h) && IsPositive(w) then Some(Num(Bmi(h.value.num, w.value.num)))
              else Find(Obj(rec), BmiKeys)
  {
    var keys := Split(path, '.');
    var u0 := Assign(rec, keys, value).value;
    assert keys[1..] == [keys[1]];
    assert u0["bookingVisit"] == Obj(rec["bookingVisit"].fields[keys[1] := value]);
    ApartSiblings("bookingVisit", keys[1], "bmi");
    AssignApart(rec, keys, value, BmiKeys);
    var u := AncUpdate(rec, path, value).value;
    assert u == WithBmi(u0, "bookingVisit").value;
    WithBmiRule(u0, "bookingVisit");
    var f0 := u0["bookingVisit"].fields;
    FindTwo(u, "bookingVisit", "height");
    FindTwo(u, "bookingVisit", "weight");
    FindTwo(u, "bookingVisit", "bmi");
    FindTwo(u0, "bookingVisit", "bmi");
  }

  /** The EDD rule: a non-empty LMP text goes through exactly when
      `obstetricStatus` is an object and the text is a date, and then the
      EDD is that date plus 280 days. */
  lemma AncEddRule(rec: Record, path: string, lmp: string)
    requires Split(path, '.') == LmpKeys && lmp != ""
    ensures AncUpdate(rec, path, Str(lmp)).Some? <==>
            ("obstetricStatus" in rec && rec["obstetricStatus"].Obj? && EddFromLmp(lmp).Some?)
    ensures AncUpdate(rec, path, Str(lmp)).Some? ==>
            Find(Obj(AncUpdate(rec, path, Str(lmp)).value), EddKeys) == Some(Str(EddFromLmp(lmp).value))
  {
    AssignSucceeds(rec, LmpKeys, Str(lmp));
    assert LmpKeys[..1] == ["obstetricStatus"];
    assert ["obstetricStatus"][1..] == [];
    if "obstetricStatus" in rec && rec["obstetricStatus"].Obj? {
      var u := Assign(rec, LmpKeys, Str(lmp)).value;
      AssignFind(rec, LmpKeys, Str(lmp));
      assert LmpKeys[1..] == ["lmp"];
      if EddFromLmp(lmp).Some? {
        AssignSucceeds(u, EddKeys, Str(EddFromLmp(lmp).value));
        assert EddKeys[..1] == ["obstetricStatus"];
        AssignFind(u, EddKeys, Str(EddFromLmp(lmp).value));
      }
    }
  }

  /** Clearing the LMP, or any other falsy value at its path, leaves the
      EDD as it was: the derivation needs a truthy value. */
  lemma FalsyLmpKeepsEdd(rec: Record, path: string, value: Value)
    requires Split(path, '.') == LmpKeys && !Truthy(Some(value))
    requires AncUpdate(rec, path, value).Some?
    ensures Find(Obj(AncUpdate(rec, path, value).value), EddKeys) == Find(Obj(rec), EddKeys)
  {
    ApartSiblings("obstetricStatus", "lmp", "edd");
    AssignApart(rec, LmpKeys, value, EddKeys);
  }

  /** An LMP of 2025-04-01 sets the EDD to 2026-01-06. */
  lemma AncEddExample(rec: Record, path: string, lmp: string)
    requires "obstetricStatus" in rec && rec["obstetricStatus"].Obj?
    requires Split(path, '.') == LmpKeys && lmp == "2025-04-01"
    ensures AncUpdate(rec, path, Str(lmp)).Some?
    ensures Find(Obj(AncUpdate(rec, path, Str(lmp)).value), EddKeys) == Some(Str("2026-01-06"))
  {
    EddApril(lmp);
    AncEddRule(rec, path, lmp);
  }

  // ---------------------------------------------------------------------
  // properties of the list edits and the section flags

  /** `addFollowUpVisit` keeps the earlier visits in order and adds one
      visit at the end: the new id and date, every measurement 0 and every
      other text empty. */
  lemma FollowUpVisitAppended(rec: Record, id: string, date: string)
    requires "followUpVisits" in rec && rec["followUpVisits"].Arr?
    ensures var r := WithFollowUpVisit(rec, id, date);
            var old_ := rec["followUpVisits"].items;
            && r.Some? && "followUpVisits" in r.value && r.value["followUpVisits"].Arr?
            && var now := r.value["followUpVisits"].items;
            && |now| == |old_| + 1
            && now[..|old_|] == old_
            && HasId(now[|old_|], id)
            && now[|old_|].Obj? && Get(now[|old_|].fields, "date") == Some(Str(date))
            && (forall k :: k in now[|old_|].fields && k != "id" && k != "date" ==>
                  now[|old_|].fields[k] in {Num(0.0), Str("")})
            && now[|old_|] == NewFollowUpVisit(id, date)
            && (forall k :: k in rec && k != "followUpVisits" ==> k in r.value && r.value[k] == rec[k])
  {
    var now := WithFollowUpVisit(rec, id, date).value["followUpVisits"].items;
    assert now == rec["followUpVisits"].items + [NewFollowUpVisit(id, date)];
    assert now[..|rec["followUpVisits"].items|] == rec["followUpVisits"].items;
  }

  /** `updateFollowUpVisit` keeps the number and order of the visits, sets
      `field` on the visits with the id and leaves the others as they were. */
  lemma UpdatedVisitRule(rec: Record, visitId: string, field: string, value: Value)
    requires "followUpVisits" in rec && rec["followUpVisits"].Arr?
    ensures var r := WithUpdatedVisit(rec, visitId, field, value);
            var old_ := rec["followUpVisits"].items;
            && r.Some? && "followUpVisits" in r.value && r.value["followUpVisits"].Arr?
            && var now := r.value["followUpVisits"].items;
            && |now| == |old_|
            && (forall i :: 0 <= i < |old_| && HasId(old_[i], visitId) ==>
                  now[i] == Obj(old_[i].fields[field := value]))
            && (forall i :: 0 <= i < |old_| && !HasId(old_[i], visitId) ==> now[i] == old_[i])
            && (forall k :: k in rec && k != "followUpVisits" ==> k in r.value && r.value[k] == rec[k])
  {
  }

  /** `addPastObstetricEntry` numbers the new entry one past the old length
      and keeps the earlier entries. */
  lemma PastEntryNumbered(rec: Record)
    requires "pastObstetricHistory" in rec && rec["pastObstetricHistory"].Arr?
    ensures var r := WithPastEntry(rec);
            var old_ := rec["pastObstetricHistory"].items;
            && r.Some? && "pastObstetricHistory" in r.value && r.value["pastObstetricHistory"].Arr?
            && var now := r.value["pastObstetricHistory"].items;
            && |now| == |old_| + 1
            && now[..|old_|] == old_
            && now[|old_|].Obj?
            && Get(now[|old_|].fields, "pregnancyNumber") == Some(Num((|old_| + 1) as real))
  {
    var now := WithPastEntry(rec).value["pastObstetricHistory"].items;
    var old_ := rec["pastObstetricHistory"].items;
    assert now == old_ + [NewPastEntry(|old_| + 1)];
    assert now[..|old_|] == old_;
  }

  /** The table-cell edit changes only `key` of row `idx`. */
  lemma PastRowEditRule(rec: Record, idx: nat, key: string, text: string)
    requires "pastObstetricHistory" in rec && rec["pastObstetricHistory"].Arr?
    requires idx < |rec["pastObstetricHistory"].items|
    requires rec["pastObstetricHistory"].items[idx].Obj?
    ensures var rows := rec["pastObstetricHistory"].items;
            var now := WithPastRowEdit(rec, idx, key, text)["pastObstetricHistory"];
            && now.Arr? && |now.items| == |rows|
            && now.items[idx] == Obj(rows[idx].fields[key := Str(text)])
            && (forall i :: 0 <= i < |rows| && i != idx ==> now.items[i] == rows[i])
  {
  }

  /** Toggling flips the one section and no other. */
  lemma ToggleFlipsOne(expanded: map<string, bool>, section: string)
    ensures IsOpen(Toggled(expanded, section), section) == !IsOpen(expanded, section)
    ensures forall t :: t != section ==>
              (t in Toggled(expanded, section) <==> t in expanded) &&
              IsOpen(Toggled(expanded, section), t) == IsOpen(expanded, t)
  {
  }

  /** Toggling twice shows every section as it was. */
  lemma ToggleTwice(expanded: map<string, bool>, section: string)
    ensures forall t :: IsOpen(Toggled(Toggled(expanded, section), section), t) == IsOpen(expanded, t)
  {
    ToggleFlipsOne(expanded, section);
    ToggleFlipsOne(Toggled(expanded, section), section);
  }

  /** A case started today is kept by cancel: its booking date is `today`,
      which is never empty. */
  lemma FreshCaseKept(id: string, patientName: string, patientAge: int, today: string)
    ensures CancelDrops(Some(EmptyAncCase(id, patientName, patientAge, today))) == Some(today == "")
  {
    var rec := EmptyAncCase(id, patientName, patientAge, today);
    assert rec["bookingVisit"] == Obj(BookingVisit(today));
    assert BookingVisit(today)["bookingDate"] == Str(today);
  }

  // ---------------------------------------------------------------------
  // the component

  class Editor {
    const patientName: string
    const patientAge: int
    var ancCase: Option<Record>
    var isEditing: bool
    var activeTab: AncTab
    var expandedSections: map<string, bool>

    constructor(patientName: string, patientAge: int, initialTab: Option<AncTab>)
      ensures this.patientName == patientName && this.patientAge == patientAge
      ensures ancCase == None && !isEditing
      ensures activeTab == initialTab.GetOr(Booking)
      ensures expandedSections == InitialExpanded()
    {
      this.patientName := patientName;
      this.patientAge := patientAge;
      ancCase := None;
      isEditing := false;
      activeTab := initialTab.GetOr(Booking);
      expandedSections := InitialExpanded();
    }

    /** Collapse an open section or expand a closed one. */
    method ToggleSection(section: string)
      modifies this
      ensures expandedSections == Toggled(old(expandedSections), section)
      ensures ancCase == old(ancCase) && isEditing == old(isEditing) && activeTab == old(activeTab)
    {
      expandedSections := Toggled(expandedSections, section);
    }

    /** Start a new, empty case and edit it. */
    method NewCase(id: string, today: string)
      modifies this
      ensures ancCase == Some(EmptyAncCase(id, patientName, patientAge, today))
      ensures isEditing
      ensures activeTab == old(activeTab) && expandedSections == old(expandedSections)
    {
      ancCase := Some(EmptyAncCase(id, patientName, patientAge, today));
      isEditing := true;
    }

    /** The Edit Case button. */
    method StartEditing()
      modifies this
      ensures isEditing
      ensures ancCase == old(ancCase) && activeTab == old(activeTab)
      ensures expandedSections == old(expandedSections)
    {
      isEditing := true;
    }

    /** Saving only leaves edit mode: every edit is already in the case. */
    method Save()
      modifies this
      ensures !isEditing
      ensures ancCase == old(ancCase) && activeTab == old(activeTab)
      ensures expandedSections == old(expandedSections)
    {
      isEditing := false;
    }

    /** Drop a case without a booking date, and leave edit mode. When
        reading the booking date throws, nothing changes. */
    method Cancel()
      modifies this
      ensures CancelDrops(old(ancCase)).None? ==> ancCase == old(ancCase) && isEditing == old(isEditing)
      ensures CancelDrops(old(ancCase)) == Some(true) ==> ancCase == None && !isEditing
      ensures CancelDrops(old(ancCase)) == Some(false) ==> ancCase == old(ancCase) && !isEditing
      ensures activeTab == old(activeTab) && expandedSections == old(expandedSections)
    {
      var drops := CancelDrops(ancCase);
      if drops.None? {
        return;
      }
      if drops.value {
        ancCase := None;
      }
      isEditing := false;
    }

    /** Pick a tab, from the tab bar or from the sidebar's initial tab. */
    method SelectTab(tab: AncTab)
      modifies this
      ensures activeTab == tab
      ensures ancCase == old(ancCase) && isEditing == old(isEditing)
      ensures expandedSections == old(expandedSections)
    {
      activeTab := tab;
    }

    /** `updateField(path, value)`. */
    method UpdateField(path: string, value: Value)
      modifies this
      ensures ancCase == UpdatedCase(old(ancCase), path, value)
      ensures isEditing == old(isEditing) && activeTab == old(activeTab)
      ensures expandedSections == old(expandedSections)
    {
      if ancCase.None? {
        return;
      }
      var keys := Split(path, '.');
      var written := AssignPath(ancCase.value, keys, value);
      if written.None? {
        return;
      }
      var derived := Derive(written.value, keys, value);
      if derived.Some? {
        ancCase := derived;
      }
    }

    /** `addFollowUpVisit`. */
    method AddFollowUpVisit(id: string, today: string)
      modifies this
      ensures ancCase == (if old(ancCase).None? then None
                          else Replaced(old(ancCase), WithFollowUpVisit(old(ancCase).value, id, today)))
      ensures isEditing == old(isEditing) && activeTab == old(activeTab)
      ensures expandedSections == old(expandedSections)
    {
      if ancCase.None? {
        return;
      }
      ancCase := Replaced(ancCase, WithFollowUpVisit(ancCase.value, id, today));
    }

    /** `updateFollowUpVisit`. */
    method UpdateFollowUpVisit(visitId: string, field: string, value: Value)
      modifies this
      ensures ancCase == (if old(ancCase).None? then None
                          else Replaced(old(ancCase), WithUpdatedVisit(old(ancCase).value, visitId, field, value)))
      ensures isEditing == old(isEditing) && activeTab == old(activeTab)
      ensures expandedSections == old(expandedSections)
    {
      if ancCase.None? {
        return;
      }
      ancCase := Replaced(ancCase, WithUpdatedVisit(ancCase.value, visitId, field, value));
    }

    /** `addPastObstetricEntry`. */
    method AddPastObstetricEntry()
      modifies this
      ensures ancCase == (if old(ancCase).None? then None
                          else Replaced(old(ancCase), WithPastEntry(old(ancCase).value)))
      ensures isEditing == old(isEditing) && activeTab == old(activeTab)
      ensures expandedSections == old(expandedSections)
    {
      if ancCase.None? {
        return;
      }
      ancCase := Replaced(ancCase, WithPastEntry(ancCase.value));
    }

    /** A keystroke in one cell of a displayed past-pregnancy row. */
    method EditPastRow(idx: nat, key: string, text: string)
      requires ancCase.Some? && "pastObstetricHistory" in ancCase.value
      requires ancCase.value["pastObstetricHistory"].Arr?
      requires idx < |ancCase.value["pastObstetricHistory"].items|
      modifies this
      ensures ancCase == Some(WithPastRowEdit(old(ancCase).value, idx, key, text))
      ensures isEditing == old(isEditing) && activeTab == old(activeTab)
      ensures expandedSections == old(expandedSections)
    {
      ancCase := Some(WithPastRowEdit(ancCase.value, idx, key, text));
    }
  }
}
