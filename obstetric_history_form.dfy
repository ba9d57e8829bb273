/** The past-pregnancy table: entries added at the end with the next number,
    edited cell by cell, and removed with the remaining entries renumbered
    1..n in list order. */
module ObstetricHistoryForm {
  import opened Lists

  datatype Entry = Entry(
    id: string,
    pregnancyNumber: int,
    year: string,
    antenatalCourse: string,
    modeOfDelivery: string,
    sexOfBaby: string,
    birthWeight: string,
    remarks: string)

  /** The text columns a row's inputs edit. */
  datatype Column = Year | AntenatalCourse | ModeOfDelivery | SexOfBaby | BirthWeight | Remarks

  /** `createEmptyEntry(n)`, with the generated id supplied by the caller. */
  function EmptyEntry(id: string, n: int): Entry {
    Entry(id, n, "", "", "", "", "", "")
  }

  /** `addEntry`: one empty entry numbered one past the list length. */
  function Added(entries: seq<Entry>, id: string): seq<Entry> {
    entries + [EmptyEntry(id, |entries| + 1)]
  }

  predicate KeepsAgainst(id: string, e: Entry) {
    e.id != id
  }

  /** The entries `prev.filter(e => e.id !== id)` keeps. */
  function Others(entries: seq<Entry>, id: string): seq<Entry> {
    Filter(entries, e => KeepsAgainst(id, e))
  }

  /** Each entry numbered by its position, counting from 1. */
  function Renumbered(s: seq<Entry>): (r: seq<Entry>)
    ensures |r| == |s|
  {
    seq(|s|, i requires 0 <= i < |s| => s[i].(pregnancyNumber := i + 1))
  }

  /** `removeEntry(id)`. */
  function Removed(entries: seq<Entry>, id: string): seq<Entry> {
    Renumbered(Others(entries, id))
  }

  /** `{ ...e, [field]: value }` for one of the text columns. */
  function WithColumn(e: Entry, c: Column, value: string): Entry {
    match c
    case Year => e.(year := value)
    case AntenatalCourse => e.(antenatalCourse := value)
    case ModeOfDelivery => e.(modeOfDelivery := value)
    case SexOfBaby => e.(sexOfBaby := value)
    case BirthWeight => e.(birthWeight := value)
    case Remarks => e.(remarks := value)
  }

  function ColumnText(e: Entry, c: Column): string {
    match c
    case Year => e.year
    case AntenatalCourse => e.antenatalCourse
    case ModeOfDelivery => e.modeOfDelivery
    case SexOfBaby => e.sexOfBaby
    case BirthWeight => e.birthWeight
    case Remarks => e.remarks
  }

  /** `updateEntry(id, field, value)`. */
  function Updated(entries: seq<Entry>, id: string, c: Column, value: string): (r: seq<Entry>)
    ensures |r| == |entries|
  {
    seq(|entries|, i requires 0 <= i < |entries| =>
          if entries[i].id == id then WithColumn(entries[i], c, value) else entries[i])
  }

  /** The entry without its number, for comparing entries across a
      renumbering. */
  function Unnumbered(e: Entry): Entry {
    e.(pregnancyNumber := 0)
  }

  /** The pregnancy numbers are 1..n in list order. */
  predicate Numbered(s: seq<Entry>) {
    forall i :: 0 <= i < |s| ==> s[i].pregnancyNumber == i + 1
  }

  predicate DistinctIds(s: seq<Entry>) {
    forall i, j :: 0 <= i < j < |s| ==> s[i].id != s[j].id
  }

  /** The table's invariant: distinct ids, numbered 1..n. */
  predicate WellFormed(s: seq<Entry>) {
    DistinctIds(s) && Numbered(s)
  }

  // ---------------------------------------------------------------------
  // properties

  /** `addEntry` keeps the earlier entries and appends one empty entry whose
      number is the old length plus one. */
  lemma AddedRule(entries: seq<Entry>, id: string)
    ensures var r := Added(entries, id);
            && |r| == |entries| + 1
            && r[..|entries|] == entries
            && r[|entries|].id == id && r[|entries|].pregnancyNumber == |entries| + 1
            && forall c :: ColumnText(r[|entries|], c) == ""
  {
    assert Added(entries, id)[..|entries|] == entries;
  }

  /** Renumbering changes nothing but the numbers. */
  lemma RenumberedKeepsContent(s: seq<Entry>)
    ensures Numbered(Renumbered(s))
    ensures forall i :: 0 <= i < |s| ==> Unnumbered(Renumbered(s)[i]) == Unnumbered(s[i])
  {
  }

  /** `removeEntry(id)` leaves exactly the entries with another id, in their
      old relative order, each with its columns and id unchanged. */
  lemma RemovedRule(entries: seq<Entry>, id: string)
    ensures |Removed(entries, id)| == |Others(entries, id)|
    ensures forall i :: 0 <= i < |Removed(entries, id)| ==>
              Unnumbered(Removed(entries, id)[i]) == Unnumbered(Others(entries, id)[i])
    ensures forall e :: e in Others(entries, id) <==> e in entries && e.id != id
    ensures Numbered(Removed(entries, id))
  {
    RenumberedKeepsContent(Others(entries, id));
    forall e
      ensures e in Others(entries, id) <==> e in entries && e.id != id
    {
      FilterMembership(entries, e => KeepsAgainst(id, e), e);
    }
  }

  /** Removal keeps the order: removing from a concatenation removes from
      each part. */
  lemma OthersConcat(a: seq<Entry>, b: seq<Entry>, id: string)
    ensures Others(a + b, id) == Others(a, id) + Others(b, id)
  {
    FilterConcat(a, b, e => KeepsAgainst(id, e));
  }

  /** Removing pregnancy #2 of three leaves the former #1 and #3, numbered
      1 and 2. */
  lemma RemoveSecondOfThree(a: Entry, b: Entry, c: Entry)
    requires a.id != b.id && c.id != b.id
    requires a.pregnancyNumber == 1
    ensures Removed([a, b, c], b.id) == [a, c.(pregnancyNumber := 2)]
  {
    var p := e => KeepsAgainst(b.id, e);
    assert [a, b, c][1..] == [b, c];
    assert [b, c][1..] == [c];
    assert [c][1..] == [];
    assert Filter([c], p) == [c];
    assert Filter([b, c], p) == [c];
    assert Filter([a, b, c], p) == [a, c];
  }

  /** `updateEntry` changes only the one column of the entries with the id. */
  lemma UpdatedRule(entries: seq<Entry>, id: string, c: Column, value: string)
    ensures forall i :: 0 <= i < |entries| && entries[i].id == id ==>
              var e := Updated(entries, id, c, value)[i];
              && ColumnText(e, c) == value && e.id == id
              && e.pregnancyNumber == entries[i].pregnancyNumber
              && forall d :: d != c ==> ColumnText(e, d) == ColumnText(entries[i], d)
    ensures forall i :: 0 <= i < |entries| && entries[i].id != id ==>
              Updated(entries, id, c, value)[i] == entries[i]
  {
    forall i, d | 0 <= i < |entries| && entries[i].id == id && d != c
      ensures ColumnText(Updated(entries, id, c, value)[i], d) == ColumnText(entries[i], d)
    {
      match c
      case Year =>
      case AntenatalCourse =>
      case ModeOfDelivery =>
      case SexOfBaby =>
      case BirthWeight =>
      case Remarks =>
    }
  }

  /** A filter keeps the ids distinct. */
  lemma {:induction false} OthersDistinct(s: seq<Entry>, id: string)
    requires DistinctIds(s)
    ensures DistinctIds(Others(s, id))
  {
    if s != [] {
      var p := e => KeepsAgainst(id, e);
      assert DistinctIds(s[1..]);
      OthersDistinct(s[1..], id);
      var rest := Others(s[1..], id);
      if p(s[0]) {
        forall j | 0 <= j < |rest|
          ensures rest[j].id != s[0].id
        {
          assert rest[j] in s[1..];
        }
        assert Others(s, id) == [s[0]] + rest;
      } else {
        assert Others(s, id) == rest;
      }
    }
  }

  /** Add (with an id not in the table), remove and update each keep the
      ids distinct and the numbers 1..n. */
  lemma WellFormedKept(s: seq<Entry>, id: string, c: Column, value: string)
    requires WellFormed(s)
    ensures (forall e :: e in s ==> e.id != id) ==> WellFormed(Added(s, id))
    ensures WellFormed(Removed(s, id))
    ensures WellFormed(Updated(s, id, c, value))
  {
    if forall e :: e in s ==> e.id != id {
      var r := Added(s, id);
      forall i, j | 0 <= i < j < |r|
        ensures r[i].id != r[j].id
      {
        if j == |s| {
          assert r[i] == s[i];
          assert s[i] in s;
        }
      }
    }
    OthersDistinct(s, id);
    RemovedRule(s, id);
    forall i | 0 <= i < |s|
      ensures Updated(s, id, c, value)[i].id == s[i].id
      ensures Updated(s, id, c, value)[i].pregnancyNumber == s[i].pregnancyNumber
    {
      match c
      case Year =>
      case AntenatalCourse =>
      case ModeOfDelivery =>
      case SexOfBaby =>
      case BirthWeight =>
      case Remarks =>
    }
  }

  // ---------------------------------------------------------------------
  // the component

  class Editor {
    var entries: seq<Entry>
    var isEditing: bool

    constructor()
      ensures entries == [] && !isEditing
    {
      entries := [];
      isEditing := false;
    }

    /** The Edit button. */
    method StartEditing()
      modifies this
      ensures isEditing && entries == old(entries)
    {
      isEditing := true;
    }

    /** Save only leaves edit mode; the entries stay as edited. */
    method Save()
      modifies this
      ensures !isEditing && entries == old(entries)
    {
      isEditing := false;
    }

    /** Cancel only leaves edit mode: the edits are not reverted. */
    method Cancel()
      modifies this
      ensures !isEditing && entries == old(entries)
    {
      isEditing := false;
    }

    method AddEntry(id: string)
      modifies this
      ensures entries == Added(old(entries), id) && isEditing == old(isEditing)
    {
      entries := Added(entries, id);
    }

    method RemoveEntry(id: string)
      modifies this
      ensures entries == Removed(old(entries), id) && isEditing == old(isEditing)
    {
      entries := Removed(entries, id);
    }

    method UpdateEntry(id: string, c: Column, value: string)
      modifies this
      ensures entries == Updated(old(entries), id, c, value) && isEditing == old(isEditing)
    {
      entries := Updated(entries, id, c, value);
    }
  }
}
