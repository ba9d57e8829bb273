/** The record sidebar and its profile editor: the initials and the GPLA
    summary of the header, the one open collapsible section, the entries
    the medical- and family-history panels list and their "nil" lines, the
    humanised entry keys, the allergies field's parse and join, and the
    profile form's field-by-field update. */
module Sidebar {
  import opened Wrappers
  import opened Text
  import opened Lists
  import opened Types

  // ---------------------------------------------------------------------
  // initials

  /** `words.map(n => n[0]).join('')`: an empty word yields `undefined`,
      which `join` renders as nothing. */
  function FirstChars(words: seq<string>): string {
    if words == [] then ""
    else (if words[0] == "" then "" else [words[0][0]]) + FirstChars(words[1..])
  }

  /** `getInitials(name)`. */
  function Initials(name: string): string {
    ToUpper(FirstChars(Split(name, ' ')))
  }

  predicate IsWord(w: string) {
    w != ""
  }

  /** The non-empty words of a list, in order. */
  function NonEmpty(words: seq<string>): (r: seq<string>)
    ensures forall i :: 0 <= i < |r| ==> r[i] != "" && r[i] in words
  {
    var r := Filter(words, IsWord);
    assert forall i :: 0 <= i < |r| ==> r[i] in r;
    r
  }

  /** The non-empty space-separated words of a name, in order. */
  function Words(name: string): (r: seq<string>)
    ensures forall i :: 0 <= i < |r| ==> r[i] != "" && ' ' !in r[i]
  {
    NonEmpty(Split(name, ' '))
  }

  /** The first characters of words that are all non-empty. */
  function Heads(ws: seq<string>): (r: string)
    requires forall i :: 0 <= i < |ws| ==> ws[i] != ""
    ensures |r| == |ws|
  {
    seq(|ws|, i requires 0 <= i < |ws| => ws[i][0])
  }

  /** Skipping the empty words and taking the first character of each
      remaining word is what the map-and-join does. */
  lemma {:induction false} FirstCharsRule(words: seq<string>)
    ensures FirstChars(words) == Heads(NonEmpty(words))
  {
    if words != [] {
      FirstCharsRule(words[1..]);
      var rest := NonEmpty(words[1..]);
      if words[0] != "" {
        assert NonEmpty(words) == [words[0]] + rest;
        assert Heads([words[0]] + rest) == [words[0][0]] + Heads(rest);
      } else {
        assert NonEmpty(words) == rest;
      }
    }
  }

  /** The initials are the upper-cased first characters of the non-empty
      space-separated words, one per word and in order. */
  lemma InitialsRule(name: string)
    ensures |Initials(name)| == |Words(name)|
    ensures forall i :: 0 <= i < |Words(name)| ==> Initials(name)[i] == UpperChar(Words(name)[i][0])
  {
    FirstCharsRule(Split(name, ' '));
  }

  /** A first and a last name give two initials. */
  lemma InitialsOfFullName(first: string, last: string)
    requires first != "" && last != "" && ' ' !in first && ' ' !in last
    ensures Initials(first + " " + last) == [UpperChar(first[0]), UpperChar(last[0])]
  {
    assert Join([first, last], " ") == first + " " + last;
    SplitJoin([first, last], ' ');
    assert [first, last][1..] == [last];
    assert [last][1..] == [];
    assert FirstChars([last]) == [last[0]];
    assert FirstChars([first, last]) == [first[0], last[0]];
  }

  // ---------------------------------------------------------------------
  // GPLA

  /** `formatGPLA(ob)`. */
  function FormatGpla(ob: ObstetricHistory): string {
    "G" + IntToString(ob.gravida) + " P" + IntToString(ob.para)
    + " L" + IntToString(ob.living) + " A" + IntToString(ob.abortion)
  }

  /** The summary is four space-separated fields, each a letter and a count. */
  lemma GplaFields(ob: ObstetricHistory)
    ensures Split(FormatGpla(ob), ' ') ==
              ["G" + IntToString(ob.gravida), "P" + IntToString(ob.para),
               "L" + IntToString(ob.living), "A" + IntToString(ob.abortion)]
  {
    var g, p, l, a := "G" + IntToString(ob.gravida), "P" + IntToString(ob.para),
                      "L" + IntToString(ob.living), "A" + IntToString(ob.abortion);
    var parts := [g, p, l, a];
    JoinFour(g, p, l, a);
    assert FormatGpla(ob) == g + " " + p + " " + l + " " + a;
    CountField('G', ob.gravida);
    CountField('P', ob.para);
    CountField('L', ob.living);
    CountField('A', ob.abortion);
    SplitJoin(parts, ' ');
  }

  /** Four pieces joined by blanks. */
  lemma JoinFour(g: string, p: string, l: string, a: string)
    ensures Join([g, p, l, a], " ") == g + " " + p + " " + l + " " + a
  {
    assert [l, a][1..] == [a];
    assert [p, l, a][1..] == [l, a];
    assert [g, p, l, a][1..] == [p, l, a];
    assert Join([l, a], " ") == l + " " + a;
    assert Join([p, l, a], " ") == p + " " + (l + " " + a);
    assert Join([g, p, l, a], " ") == g + " " + (p + " " + (l + " " + a));
  }

  /** A letter followed by a count holds no blank. */
  lemma CountField(c: char, n: int)
    requires c != ' '
    ensures ' ' !in [c] + IntToString(n)
  {
  }

  /** Different counts give different summaries: the four counts can be
      read back from the text. */
  lemma GplaInjective(a: ObstetricHistory, b: ObstetricHistory)
    requires FormatGpla(a) == FormatGpla(b)
    ensures a.gravida == b.gravida && a.para == b.para && a.living == b.living && a.abortion == b.abortion
  {
    GplaFields(a);
    GplaFields(b);
    var fa, fb := Split(FormatGpla(a), ' '), Split(FormatGpla(b), ' ');
    assert fa[0][1..] == IntToString(a.gravida) && fb[0][1..] == IntToString(b.gravida);
    assert fa[1][1..] == IntToString(a.para) && fb[1][1..] == IntToString(b.para);
    assert fa[2][1..] == IntToString(a.living) && fb[2][1..] == IntToString(b.living);
    assert fa[3][1..] == IntToString(a.abortion) && fb[3][1..] == IntToString(b.abortion);
    IntToStringInjective(a.gravida, b.gravida);
    IntToStringInjective(a.para, b.para);
    IntToStringInjective(a.living, b.living);
    IntToStringInjective(a.abortion, b.abortion);
  }

  // ---------------------------------------------------------------------
  // the open section

  /** The section open when the sidebar mounts; no panel has this name. */
  const InitialSection: string := "quick-info"

  /** `toggleSection(s)`: a click on the open section closes it, a click on
      any other opens it in place of the one open. */
  function Toggled(open: Option<string>, s: string): Option<string> {
    if open == Some(s) then None else Some(s)
  }

  /** After a toggle of `s`, `s` is open exactly when it was not, and
      nothing else is open; toggling twice restores the state exactly when
      nothing or `s` itself was open before. */
  lemma ToggleRule(open: Option<string>, s: string)
    ensures Toggled(open, s) == Some(s) <==> open != Some(s)
    ensures Toggled(open, s) != Some(s) ==> Toggled(open, s) == None
    ensures Toggled(Toggled(open, s), s) == open <==> open == None || open == Some(s)
  {
  }

  // ---------------------------------------------------------------------
  // history panels

  /** The falsy history values: `false`, the empty text and `null`. */
  predicate Falsy(v: HistoryValue) {
    v == Flag(false) || v == Note("") || v == Null
  }

  /** `v === true || (typeof v === 'string' && v)`. */
  predicate Listed(e: (string, HistoryValue)) {
    e.1 == Flag(true) || (e.1.Note? && e.1.text != "")
  }

  /** The entries the medical-history panel lists. */
  function MedicalShown(h: HistoryEntries): HistoryEntries {
    Filter(h, Listed)
  }

  /** `Object.values(h).every(v => !v)`: the "nil" line shows. */
  predicate ShowsNil(h: HistoryEntries) {
    forall i :: 0 <= i < |h| ==> Falsy(h[i].1)
  }

  /** The medical panel lists exactly the entries whose value is `true` or
      a non-empty text, in order, and shows its "nil" line exactly when it
      lists nothing. */
  lemma MedicalPanelRule(h: HistoryEntries)
    ensures forall e :: e in MedicalShown(h) <==> e in h && !Falsy(e.1)
    ensures ShowsNil(h) <==> MedicalShown(h) == []
  {
    forall e
      ensures e in MedicalShown(h) <==> e in h && !Falsy(e.1)
    {
      FilterMembership(h, Listed, e);
    }
    NilAllFalsy(h);
  }

  /** The "nil" line shows exactly when no entry passes the filter. */
  lemma NilAllFalsy(h: HistoryEntries)
    ensures ShowsNil(h) <==> Filter(h, Listed) == []
  {
    FilterEmpty(h, Listed);
    if !ShowsNil(h) {
      var i :| 0 <= i < |h| && !Falsy(h[i].1);
      assert h[i] in h;
    }
  }

  predicate IsTrue(e: (string, HistoryValue)) {
    e.1 == Flag(true)
  }

  /** The family panel as written: only the entries whose value is `true`. */
  function FamilyShownAsWritten(h: HistoryEntries): HistoryEntries {
    Filter(h, IsTrue)
  }

  /** A family history whose only truthy entry is its `others` text shows
      neither an entry nor the "nil" line: the panel is blank. */
  lemma FamilyOthersHidden(others: string)
    requires others != ""
    ensures var h := [("diabetes", Flag(false)), ("others", Note(others))];
            FamilyShownAsWritten(h) == [] && !ShowsNil(h)
  {
    var h := [("diabetes", Flag(false)), ("others", Note(others))];
    assert h[1..] == [("others", Note(others))];
    assert h[1..][1..] == [];
    assert Filter(h[1..], IsTrue) == [];
    assert Filter(h, IsTrue) == [];
    assert !Falsy(h[1].1);
  }

  /** The family panel with the medical panel's filter, so that the
      `others` text is listed. */
  function FamilyShown(h: HistoryEntries): HistoryEntries {
    Filter(h, Listed)
  }

  /** With that filter the family panel shows its "nil" line exactly when
      it lists nothing, and it agrees with the panel as written on a
      history of flags only. */
  lemma FamilyPanelRule(h: HistoryEntries)
    ensures ShowsNil(h) <==> FamilyShown(h) == []
    ensures (forall i :: 0 <= i < |h| ==> h[i].1.Flag?) ==> FamilyShown(h) == FamilyShownAsWritten(h)
  {
    NilAllFalsy(h);
    if forall i :: 0 <= i < |h| ==> h[i].1.Flag? {
      FlagsOnly(h);
    }
  }

  lemma {:induction false} FlagsOnly(h: HistoryEntries)
    requires forall i :: 0 <= i < |h| ==> h[i].1.Flag?
    ensures Filter(h, Listed) == Filter(h, IsTrue)
  {
    if h != [] {
      FlagsOnly(h[1..]);
    }
  }

  // ---------------------------------------------------------------------
  // entry keys as words

  predicate IsUpper(c: char) {
    'A' <= c <= 'Z'
  }

  /** `k.replace(/([A-Z])/g, ' $1')`: a blank before every capital. */
  function Spaced(k: string): (r: string)
    ensures r != [] ==> !IsUpper(r[0])
    ensures forall i :: 0 < i < |r| && IsUpper(r[i]) ==> r[i - 1] == ' '
  {
    if k == [] then ""
    else (if IsUpper(k[0]) then [' ', k[0]] else [k[0]]) + Spaced(k[1..])
  }

  /** The key as the panels print it. */
  function Humanised(k: string): string {
    Trim(Spaced(k))
  }

  predicate NotWhitespace(c: char) {
    !IsWhitespace(c)
  }

  /** The text with every whitespace character deleted. */
  function Unspaced(s: string): string {
    Filter(s, NotWhitespace)
  }

  lemma {:induction false} SpacedUnspaced(k: string)
    ensures Unspaced(Spaced(k)) == Unspaced(k)
  {
    if k != [] {
      SpacedUnspaced(k[1..]);
      var head := if IsUpper(k[0]) then [' ', k[0]] else [k[0]];
      FilterConcat(head, Spaced(k[1..]), NotWhitespace);
      if IsUpper(k[0]) {
        assert head[1..] == [k[0]];
        assert Filter(head, NotWhitespace) == [k[0]];
      }
    }
  }

  lemma {:induction false} TrimEndDrops(s: string)
    ensures forall i :: |TrimEnd(s)| <= i < |s| ==> IsWhitespace(s[i])
  {
    if s != [] && IsWhitespace(s[|s| - 1]) {
      TrimEndDrops(s[..|s| - 1]);
    }
  }

  /** Trimming the start deletes whitespace only. */
  lemma {:induction false} UnspacedTrimStart(s: string)
    ensures Unspaced(TrimStart(s)) == Unspaced(s)
  {
    if s != [] && IsWhitespace(s[0]) {
      UnspacedTrimStart(s[1..]);
    }
  }

  /** Trimming the end deletes whitespace only. */
  lemma UnspacedTrimEnd(t: string)
    ensures Unspaced(TrimEnd(t)) == Unspaced(t)
  {
    var r := TrimEnd(t);
    TrimEndDrops(t);
    assert t == r + t[|r|..];
    FilterConcat(r, t[|r|..], NotWhitespace);
    FilterEmpty(t[|r|..], NotWhitespace);
  }

  /** Trimming deletes whitespace only. */
  lemma UnspacedTrim(s: string)
    ensures Unspaced(Trim(s)) == Unspaced(s)
  {
    UnspacedTrimStart(s);
    UnspacedTrimEnd(TrimStart(s));
  }

  /** Deleting the blanks of a humanised key gives the key back, for keys
      without whitespace. */
  lemma HumanisedRoundTrip(k: string)
    requires forall i :: 0 <= i < |k| ==> !IsWhitespace(k[i])
    ensures Unspaced(Humanised(k)) == k
  {
    SpacedUnspaced(k);
    UnspacedTrim(Spaced(k));
    forall c | c in k
      ensures NotWhitespace(c)
    {
    }
    FilterAll(k, NotWhitespace);
  }

  /** Inside a humanised key every capital follows a blank. */
  lemma HumanisedCapitals(k: string)
    ensures var h := Humanised(k);
            forall i :: 0 < i < |h| && IsUpper(h[i]) ==> h[i - 1] == ' '
  {
    var sp := Spaced(k);
    var t := TrimStart(sp);
    var h := TrimEnd(t);
    var n := |sp| - |t|;
    forall i | 0 < i < |h| && IsUpper(h[i])
      ensures h[i - 1] == ' '
    {
      assert h[i] == sp[n + i] && h[i - 1] == sp[n + i - 1];
    }
  }

  // ---------------------------------------------------------------------
  // allergies

  predicate IsItem(s: string) {
    s != ""
  }

  /** The trimmed non-empty pieces of comma-free parts are trimmed,
      non-empty and comma-free. */
  lemma KeptPieces(parts: seq<string>)
    requires forall i :: 0 <= i < |parts| ==> ',' !in parts[i]
    ensures forall x :: x in Filter(Map(parts, Trim), IsItem) ==> x != "" && IsTrimmed(x) && ',' !in x
  {
    var m := Map(parts, Trim);
    forall x | x in Filter(m, IsItem)
      ensures x != "" && IsTrimmed(x) && ',' !in x
    {
      var j :| 0 <= j < |m| && m[j] == x;
      TrimProperties(parts[j]);
    }
  }

  /** `value.split(',').map(s => s.trim()).filter(Boolean)`: the allergies
      are the trimmed, non-empty pieces between the commas. */
  function ParseAllergies(text: string): (r: seq<string>)
    ensures forall i :: 0 <= i < |r| ==> r[i] != "" && IsTrimmed(r[i]) && ',' !in r[i]
  {
    var parts := Split(text, ',');
    KeptPieces(parts);
    var r := Filter(Map(parts, Trim), IsItem);
    assert forall i :: 0 <= i < |r| ==> r[i] in r;
    r
  }

  /** `allergies.join(', ')`, the field's text. */
  function JoinAllergies(xs: seq<string>): string {
    Join(xs, ", ")
  }

  /** The pieces a comma split of the joined list gives: each item after
      the first keeps the blank that followed its comma. */
  function Pieces(xs: seq<string>): seq<string> {
    seq(|xs|, i requires 0 <= i < |xs| => if i == 0 then xs[0] else " " + xs[i])
  }

  lemma {:induction false} SplitJoined(xs: seq<string>)
    requires |xs| >= 1
    requires forall i :: 0 <= i < |xs| ==> ',' !in xs[i]
    ensures Split(Join(xs, ", "), ',') == Pieces(xs)
  {
    if |xs| == 1 {
      SplitPrefix(xs[0], "", ',');
      assert xs[0] + "" == xs[0];
    } else {
      var j := Join(xs[1..], ", ");
      SplitJoined(xs[1..]);
      assert Join(xs, ", ") == xs[0] + (", " + j);
      SplitPrefix(xs[0], ", " + j, ',');
      SplitAfterComma(j);
      assert xs[0] + "" == xs[0];
      PiecesStep(xs);
    }
  }

  /** The comma of the `', '` join ends a piece; the blank starts the next. */
  lemma SplitAfterComma(j: string)
    ensures Split(", " + j, ',') == [""] + ([" " + Split(j, ',')[0]] + Split(j, ',')[1..])
  {
    assert (", " + j)[1..] == " " + j;
    SplitPrefix(" ", j, ',');
  }

  lemma PiecesStep(xs: seq<string>)
    requires |xs| >= 2
    ensures Pieces(xs) == [xs[0]] + ([" " + xs[1]] + Pieces(xs[1..])[1..])
  {
  }

  /** Parsing the joined text of a list of trimmed, non-empty, comma-free
      items gives the list back. */
  lemma AllergiesRoundTrip(xs: seq<string>)
    requires forall i :: 0 <= i < |xs| ==> xs[i] != "" && IsTrimmed(xs[i]) && ',' !in xs[i]
    ensures ParseAllergies(JoinAllergies(xs)) == xs
  {
    if xs == [] {
      assert Split("", ',') == [""];
      assert Map([""], Trim) == [""];
      assert Filter([""], IsItem) == [];
    } else {
      SplitJoined(xs);
      var m := Map(Pieces(xs), Trim);
      forall i | 0 <= i < |xs|
        ensures m[i] == xs[i]
      {
        if i == 0 {
          TrimProperties(xs[0]);
        } else {
          TrimAfterBlank(xs[i]);
        }
      }
      assert m == xs;
      FilterAll(xs, IsItem);
    }
  }

  // ---------------------------------------------------------------------
  // the profile form

  /** The keys of a profile. */
  datatype Field = Uhid | Name | Age | Dob | Occupation | SpouseName | SpouseOccupation
                 | Address | Mobile | Allergies | BloodGroup | RhStatusField | HusbandBloodGroup

  /** What an input hands to `handleChange`: a text, a number or a list of
      texts; `Missing` stands for an optional field that is not set. */
  datatype FieldValue = Text(text: string) | Number(number: int) | Texts(texts: seq<string>) | Missing

  function OptionalText(o: Option<string>): FieldValue {
    if o.Some? then Text(o.value) else Missing
  }

  function RhText(r: RhStatus): string {
    if r == Positive then "Positive" else "Negative"
  }

  /** `profile[f]`. */
  function FieldOf(p: PatientProfile, f: Field): FieldValue {
    match f
    case Uhid => Text(p.uhid)
    case Name => Text(p.name)
    case Age => Number(p.age)
    case Dob => OptionalText(p.dob)
    case Occupation => OptionalText(p.occupation)
    case SpouseName => OptionalText(p.spouseName)
    case SpouseOccupation => OptionalText(p.spouseOccupation)
    case Address => Text(p.address)
    case Mobile => Text(p.mobile)
    case Allergies => Texts(p.allergies)
    case BloodGroup => Text(p.bloodGroup)
    case RhStatusField => Text(RhText(p.rhStatus))
    case HusbandBloodGroup => OptionalText(p.husbandBloodGroup)
  }

  /** The value has the field's type; the Rh select offers its two options. */
  predicate Fits(f: Field, v: FieldValue) {
    match f
    case Age => v.Number?
    case Allergies => v.Texts?
    case RhStatusField => v == Text("Positive") || v == Text("Negative")
    case _ => v.Text?
  }

  /** `{ ...prev, [f]: v }`. */
  function WithField(p: PatientProfile, f: Field, v: FieldValue): PatientProfile
    requires Fits(f, v)
  {
    match f
    case Uhid => p.(uhid := v.text)
    case Name => p.(name := v.text)
    case Age => p.(age := v.number)
    case Dob => p.(dob := Some(v.text))
    case Occupation => p.(occupation := Some(v.text))
    case SpouseName => p.(spouseName := Some(v.text))
    case SpouseOccupation => p.(spouseOccupation := Some(v.text))
    case Address => p.(address := v.text)
    case Mobile => p.(mobile := v.text)
    case Allergies => p.(allergies := v.texts)
    case BloodGroup => p.(bloodGroup := v.text)
    case RhStatusField => p.(rhStatus := if v.text == "Positive" then Positive else Negative)
    case HusbandBloodGroup => p.(husbandBloodGroup := Some(v.text))
  }

  /** A change sets the one field to the value and leaves every other field
      as it was. */
  lemma WithFieldRule(p: PatientProfile, f: Field, v: FieldValue)
    requires Fits(f, v)
    ensures FieldOf(WithField(p, f, v), f) == v
    ensures forall g :: g != f ==> FieldOf(WithField(p, f, v), g) == FieldOf(p, g)
  {
  }

  /** The fields the modal has an enabled input for: the UHID input is
      disabled and the husband's blood group has none. */
  predicate Editable(f: Field) {
    f != Uhid && f != HusbandBloodGroup
  }

  /** Whatever the modal's inputs change, the UHID stays. */
  lemma EditKeepsUhid(p: PatientProfile, f: Field, v: FieldValue)
    requires Fits(f, v) && Editable(f)
    ensures WithField(p, f, v).uhid == p.uhid
    ensures WithField(p, f, v).husbandBloodGroup == p.husbandBloodGroup
  {
    WithFieldRule(p, f, v);
    assert FieldOf(WithField(p, f, v), Uhid) == FieldOf(p, Uhid);
  }

  // ---------------------------------------------------------------------
  // the components' state

  /** The sidebar's `expandedSection`. */
  class SectionState {
    var open: Option<string>

    constructor()
      ensures open == Some(InitialSection)
    {
      open := Some(InitialSection);
    }

    /** An action item or panel header click. */
    method ToggleSection(s: string)
      modifies this
      ensures open == Toggled(old(open), s)
    {
      if open == Some(s) {
        open := None;
      } else {
        open := Some(s);
      }
    }

    /** A panel's close button. */
    method Close()
      modifies this
      ensures open == None
    {
      open := None;
    }
  }

  /** The profile modal's form. */
  class ProfileEditor {
    var form: PatientProfile

    /** The form starts as a copy of the profile. */
    constructor(profile: PatientProfile)
      ensures form == profile
    {
      form := profile;
    }

    /** `handleChange(f, v)`. */
    method HandleChange(f: Field, v: FieldValue)
      requires Fits(f, v)
      modifies this
      ensures form == WithField(old(form), f, v)
    {
      form := WithField(form, f, v);
    }
  }
}
