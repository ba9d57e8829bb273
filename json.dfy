/** The untyped records the two visit forms edit by dotted paths: a value is
    an object, a string, a number, a boolean or an array, and a record is the
    field map of an object. */
module Json {
  import opened Wrappers
  import opened Text

  datatype Value =
    | Obj(fields: map<string, Value>)
    | Str(text: string)
    | Num(num: real)
    | Bool(flag: bool)
    | Arr(items: seq<Value>)

  type Record = map<string, Value>

  /** JavaScript truthiness of a property read; None stands for `undefined`. */
  predicate Truthy(v: Option<Value>) {
    match v
    case None => false
    case Some(Str(s)) => s != ""
    case Some(Num(n)) => n != 0.0
    case Some(Bool(b)) => b
    case Some(_) => true
  }

  /** `rec[k]`, with None for a missing key. */
  function Get(rec: Record, k: string): (r: Option<Value>)
    ensures r.Some? <==> k in rec
    ensures r.Some? ==> r.value == rec[k]
  {
    if k in rec then Some(rec[k]) else None
  }

  /** The own enumerable properties of a string or an array: its indices in
      decimal, each mapped to its element. */
  function IndexMap(s: seq<Value>): (r: Record)
    ensures forall i :: 0 <= i < |s| ==> NatToString(i) in r && r[NatToString(i)] == s[i]
    ensures forall k :: k in r ==> exists i :: 0 <= i < |s| && k == NatToString(i)
  {
    NatToStringInjective();
    map i | 0 <= i < |s| :: NatToString(i) := s[i]
  }

  /** `{ ...v }`: an object's fields, a string's or array's indices, and no
      field at all for a number, a boolean or `undefined`. */
  function Spread(v: Option<Value>): (r: Record)
    ensures v.Some? && v.value.Obj? ==> r == v.value.fields
    ensures v.None? || v.value.Num? || v.value.Bool? ==> r == map[]
  {
    match v
    case Some(Obj(m)) => m
    case Some(Str(s)) => IndexMap(seq(|s|, i requires 0 <= i < |s| => Str([s[i]])))
    case Some(Arr(a)) => IndexMap(a)
    case _ => map[]
  }

  // ---------------------------------------------------------------------
  // paths

  /** The value reached from `v` by following `keys` through objects. */
  function Find(v: Value, keys: seq<string>): Option<Value> {
    if keys == [] then Some(v)
    else if v.Obj? && keys[0] in v.fields then Find(v.fields[keys[0]], keys[1..])
    else None
  }

  /** A two-key path reads the second key of the object under the first. */
  lemma FindTwo(root: Record, a: string, b: string)
    ensures Find(Obj(root), [a, b]) ==
            if a in root && root[a].Obj? then Get(root[a].fields, b) else None
  {
    assert [a, b][1..] == [b];
    assert [b][1..] == [];
    if a in root && root[a].Obj? {
      assert Find(Obj(root), [a, b]) == Find(root[a], [b]);
      if b in root[a].fields {
        assert Find(root[a], [b]) == Find(root[a].fields[b], []);
      }
    }
  }

  predicate IsPrefix(p: seq<string>, q: seq<string>) {
    |p| <= |q| && q[..|p|] == p
  }

  /** Two paths that branch apart: neither lies on the other. */
  predicate Apart(p: seq<string>, q: seq<string>) {
    !IsPrefix(p, q) && !IsPrefix(q, p)
  }

  /** Two paths with the same first key are prefixes of one another exactly
      when their tails are. */
  lemma PrefixTail(p: seq<string>, q: seq<string>)
    requires p != [] && q != [] && p[0] == q[0]
    ensures IsPrefix(p, q) <==> IsPrefix(p[1..], q[1..])
  {
    if |p| <= |q| {
      assert q[..|p|] == [q[0]] + q[1..][..|p| - 1];
      assert p == [p[0]] + p[1..];
    }
  }

  /** Walk `keys` except the last through objects and assign the last key
      there, as strict-mode JavaScript does on a deep copy: None where the
      walk reaches something that is not an object, where JavaScript throws
      a TypeError. */
  function Assign(root: Record, keys: seq<string>, v: Value): Option<Record>
    requires |keys| >= 1
    decreases |keys|
  {
    if |keys| == 1 then Some(root[keys[0] := v])
    else if keys[0] in root && root[keys[0]].Obj? then
      match Assign(root[keys[0]].fields, keys[1..], v)
      case None => None
      case Some(m) => Some(root[keys[0] := Obj(m)])
    else None
  }

  /** The assignment goes through exactly when the path without its last key
      leads to an object. */
  lemma {:induction false} AssignSucceeds(root: Record, keys: seq<string>, v: Value)
    requires |keys| >= 1
    ensures Assign(root, keys, v).Some? <==>
            (var parent := Find(Obj(root), keys[..|keys| - 1]); parent.Some? && parent.value.Obj?)
    decreases |keys|
  {
    if |keys| > 1 {
      assert keys[..|keys| - 1][0] == keys[0];
      assert keys[..|keys| - 1][1..] == keys[1..][..|keys| - 2];
      if keys[0] in root && root[keys[0]].Obj? {
        AssignSucceeds(root[keys[0]].fields, keys[1..], v);
      }
    }
  }

  /** After the assignment the path reads the assigned value. */
  lemma {:induction false} AssignFind(root: Record, keys: seq<string>, v: Value)
    requires |keys| >= 1
    requires Assign(root, keys, v).Some?
    ensures Find(Obj(Assign(root, keys, v).value), keys) == Some(v)
    decreases |keys|
  {
    if |keys| > 1 {
      AssignFind(root[keys[0]].fields, keys[1..], v);
    }
  }

  /** Every path apart from the assigned one reads as before. */
  lemma {:induction false} AssignApart(root: Record, keys: seq<string>, v: Value, q: seq<string>)
    requires |keys| >= 1
    requires Assign(root, keys, v).Some?
    requires Apart(keys, q)
    ensures Find(Obj(Assign(root, keys, v).value), q) == Find(Obj(root), q)
    decreases |keys|
  {
    var r := Assign(root, keys, v).value;
    assert q != [];
    if q[0] == keys[0] {
      assert |keys| > 1 && |q| > 1;
      PrefixTail(keys, q);
      PrefixTail(q, keys);
      AssignApart(root[keys[0]].fields, keys[1..], v, q[1..]);
    }
  }

  /** The copy-on-path variant: every object on the path is replaced by a
      spread copy of what was there (`obj[k] = { ...obj[k] }`), so the walk
      never fails. */
  function CopyAssign(root: Record, keys: seq<string>, v: Value): Record
    requires |keys| >= 1
    decreases |keys|
  {
    if |keys| == 1 then root[keys[0] := v]
    else root[keys[0] := Obj(CopyAssign(Spread(Get(root, keys[0])), keys[1..], v))]
  }

  /** The copy-on-path assignment always makes the path read the value. */
  lemma {:induction false} CopyAssignFind(root: Record, keys: seq<string>, v: Value)
    requires |keys| >= 1
    ensures Find(Obj(CopyAssign(root, keys, v)), keys) == Some(v)
    decreases |keys|
  {
    if |keys| > 1 {
      CopyAssignFind(Spread(Get(root, keys[0])), keys[1..], v);
    }
  }

  /** Where the walking assignment succeeds, the copy-on-path one gives the
      same record. */
  lemma {:induction false} CopyAssignAgrees(root: Record, keys: seq<string>, v: Value)
    requires |keys| >= 1
    requires Assign(root, keys, v).Some?
    ensures CopyAssign(root, keys, v) == Assign(root, keys, v).value
    decreases |keys|
  {
    if |keys| > 1 {
      CopyAssignAgrees(root[keys[0]].fields, keys[1..], v);
    }
  }

  /** The copy-on-path assignment leaves the keys outside the path's first
      step alone. */
  lemma CopyAssignOtherKeys(root: Record, keys: seq<string>, v: Value, k: string)
    requires |keys| >= 1 && k != keys[0]
    ensures Get(CopyAssign(root, keys, v), k) == Get(root, k)
  {
  }

  // ---------------------------------------------------------------------
  // BMI

  /** `Math.round(x * 10) / 10`: round half up to one decimal. */
  function RoundTenth(x: real): (r: real)
    ensures -0.05 < r - x <= 0.05
  {
    ((x * 10.0 + 0.5).Floor as real) / 10.0
  }

  /** `r` is a whole number of tenths. */
  lemma RoundTenthIsTenths(x: real)
    ensures (RoundTenth(x) * 10.0).Floor as real == RoundTenth(x) * 10.0
  {
  }

  /** Body mass index from centimetres and kilograms, rounded to a tenth. */
  function Bmi(heightCm: real, weightKg: real): (r: real)
    requires heightCm > 0.0
    ensures var exact := weightKg / ((heightCm / 100.0) * (heightCm / 100.0));
            -0.05 < r - exact <= 0.05
  {
    RoundTenth(weightKg / ((heightCm / 100.0) * (heightCm / 100.0)))
  }

  predicate IsPositive(v: Option<Value>) {
    v.Some? && v.value.Num? && v.value.num > 0.0
  }

  /** The path is `section.weight` or `section.height`, the two fields the
      BMI is computed from. */
  predicate IsBmiTrigger(section: string, keys: seq<string>) {
    keys == [section, "weight"] || keys == [section, "height"]
  }

  /** The test on the split keys agrees with the forms' test on the path
      text, `path === section + '.weight' || path === section + '.height'`. */
  lemma BmiTriggerPaths(section: string, path: string)
    requires '.' !in section
    ensures IsBmiTrigger(section, Split(path, '.')) <==>
            path == section + ".weight" || path == section + ".height"
  {
    SplitTwo(path, section, "weight");
    SplitTwo(path, section, "height");
  }

  /** The automatic BMI of both forms (`updated.<section>.height`, `.weight`
      and `.bmi`): when `section` is an object holding a positive height and
      a positive weight, its `bmi` becomes their BMI; otherwise the record
      is left as it is, including any earlier `bmi`. None when `section` is
      missing, where reading `.height` of `undefined` throws. */
  function WithBmi(root: Record, section: string): (r: Option<Record>)
    ensures r.Some? <==> section in root
    ensures r.Some? ==> r.value.Keys == root.Keys
    ensures r.Some? ==> forall k :: k in root && k != section ==> r.value[k] == root[k]
  {
    if section !in root then None
    else
      var fields := Spread(Some(root[section]));
      var h := Get(fields, "height");
      var w := Get(fields, "weight");
      if root[section].Obj? && IsPositive(h) && IsPositive(w) then
        Some(root[section := Obj(fields["bmi" := Num(Bmi(h.value.num, w.value.num))])])
      else Some(root)
  }

  /** On an object section the BMI is written exactly when both measurements
      are positive, it is the rounded BMI of those measurements, and no other
      field of the section changes. */
  lemma WithBmiRule(root: Record, section: string)
    requires section in root && root[section].Obj?
    ensures var fields := root[section].fields;
            var h := Get(fields, "height");
            var w := Get(fields, "weight");
            var out := WithBmi(root, section).value[section];
            && out.Obj?
            && (IsPositive(h) && IsPositive(w) ==>
                  out.fields == fields["bmi" := Num(Bmi(h.value.num, w.value.num))])
            && (!(IsPositive(h) && IsPositive(w)) ==> out.fields == fields)
  {
  }

  /** When the BMI is written, the write is the path assignment of
      `section.bmi`. */
  lemma WithBmiAssigns(root: Record, section: string)
    requires section in root && root[section].Obj?
    ensures var h := Get(root[section].fields, "height");
            var w := Get(root[section].fields, "weight");
            WithBmi(root, section) ==
              if IsPositive(h) && IsPositive(w)
              then Assign(root, [section, "bmi"], Num(Bmi(h.value.num, w.value.num)))
              else Some(root)
  {
    assert [section, "bmi"][1..] == ["bmi"];
  }

  /** `[...v]`: the elements of an array or the characters of a string; None
      for anything else, where JavaScript throws because it is not iterable. */
  function SpreadList(v: Option<Value>): (r: Option<seq<Value>>)
    ensures v.Some? && v.value.Arr? ==> r == Some(v.value.items)
    ensures v.Some? && v.value.Str? ==> r.Some? && |r.value| == |v.value.text|
    ensures v.Some? && v.value.Str? ==>
              forall i :: 0 <= i < |v.value.text| ==> r.value[i] == Str([v.value.text[i]])
    ensures r.Some? <==> v.Some? && (v.value.Arr? || v.value.Str?)
  {
    match v
    case Some(Arr(a)) => Some(a)
    case Some(Str(s)) => Some(seq(|s|, i requires 0 <= i < |s| => Str([s[i]])))
    case _ => None
  }
}
