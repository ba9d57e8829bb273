/** The JavaScript string operations the screens use, on ASCII text:
    `split` on one character, `join`, `trim`, `toLowerCase`/`toUpperCase`,
    `includes`, and the decimal rendering of integers in template strings. */
module Text {

  // ---------------------------------------------------------------------
  // split and join

  /** `s.split(sep)` for a one-character separator: the pieces between the
      separators, so a string with k separators gives k + 1 pieces. */
  function Split(s: string, sep: char): (parts: seq<string>)
    ensures |parts| >= 1
    ensures forall i :: 0 <= i < |parts| ==> sep !in parts[i]
  {
    if s == [] then [""]
    else
      var rest := Split(s[1..], sep);
      if s[0] == sep then [""] + rest
      else [[s[0]] + rest[0]] + rest[1..]
  }

  /** `parts.join(sep)`. */
  function Join(parts: seq<string>, sep: string): string {
    if |parts| == 0 then ""
    else if |parts| == 1 then parts[0]
    else parts[0] + sep + Join(parts[1..], sep)
  }

  /** Joining the pieces of a split with the same separator gives the string back. */
  lemma {:induction false} JoinSplit(s: string, sep: char)
    ensures Join(Split(s, sep), [sep]) == s
  {
    if s != [] {
      var rest := Split(s[1..], sep);
      JoinSplit(s[1..], sep);
      if s[0] == sep {
        assert Split(s, sep) == [""] + rest;
        assert ([""] + rest)[1..] == rest;
      } else if |rest| == 1 {
        assert Split(s, sep) == [[s[0]] + rest[0]];
      } else {
        assert Split(s, sep) == [[s[0]] + rest[0]] + rest[1..];
        assert ([[s[0]] + rest[0]] + rest[1..])[1..] == rest[1..];
      }
    }
  }

  /** A prefix without the separator becomes the head of the first piece. */
  lemma {:induction false} SplitPrefix(a: string, t: string, sep: char)
    requires sep !in a
    ensures Split(a + t, sep) == [a + Split(t, sep)[0]] + Split(t, sep)[1..]
  {
    if a != [] {
      assert (a + t)[0] == a[0];
      assert (a + t)[1..] == a[1..] + t;
      SplitPrefix(a[1..], t, sep);
      assert [a[0]] + (a[1..] + Split(t, sep)[0]) == a + Split(t, sep)[0];
    } else {
      var r := Split(t, sep);
      assert a + t == t;
      assert a + r[0] == r[0];
      assert [r[0]] + r[1..] == r;
    }
  }

  /** Splitting a join gives the pieces back when no piece holds the separator. */
  lemma {:induction false} SplitJoin(parts: seq<string>, sep: char)
    requires |parts| >= 1
    requires forall i :: 0 <= i < |parts| ==> sep !in parts[i]
    ensures Split(Join(parts, [sep]), sep) == parts
  {
    if |parts| == 1 {
      SplitPrefix(parts[0], "", sep);
      assert parts[0] + "" == parts[0];
    } else {
      var j := Join(parts[1..], [sep]);
      SplitJoin(parts[1..], sep);
      assert Join(parts, [sep]) == parts[0] + ([sep] + j);
      SplitPrefix(parts[0], [sep] + j, sep);
      assert ([sep] + j)[1..] == j;
      assert Split([sep] + j, sep) == [""] + parts[1..];
      assert parts[0] + "" == parts[0];
    }
  }

  /** A string splits into two separator-free pieces exactly when it is
      those pieces joined by the separator. */
  lemma SplitTwo(path: string, a: string, b: string)
    requires '.' !in a && '.' !in b
    ensures Split(path, '.') == [a, b] <==> path == a + "." + b
  {
    assert Join([a, b], ".") == a + "." + b;
    if path == a + "." + b {
      SplitJoin([a, b], '.');
    }
    if Split(path, '.') == [a, b] {
      JoinSplit(path, '.');
    }
  }

  // ---------------------------------------------------------------------
  // whitespace and trim

  /** The ASCII whitespace that `String.prototype.trim` removes. */
  predicate IsWhitespace(c: char) {
    c == ' ' || c == '\t' || c == '\n' || c == '\r' || c == '\U{0B}' || c == '\U{0C}'
  }

  /** Leading whitespace removed. */
  function TrimStart(s: string): (r: string)
    ensures |r| <= |s| && r == s[|s| - |r|..]
    ensures r != [] ==> !IsWhitespace(r[0])
  {
    if s != [] && IsWhitespace(s[0]) then TrimStart(s[1..]) else s
  }

  /** Trailing whitespace removed. */
  function TrimEnd(s: string): (r: string)
    ensures |r| <= |s| && r == s[..|r|]
    ensures r != [] ==> !IsWhitespace(r[|r| - 1])
  {
    if s != [] && IsWhitespace(s[|s| - 1]) then TrimEnd(s[..|s| - 1]) else s
  }

  /** `s.trim()`. */
  function Trim(s: string): string {
    TrimEnd(TrimStart(s))
  }

  /** Neither end of `s` is whitespace. */
  predicate IsTrimmed(s: string) {
    s == [] || (!IsWhitespace(s[0]) && !IsWhitespace(s[|s| - 1]))
  }

  /** Trim removes whitespace at both ends, keeps a contiguous piece of the
      input, and leaves an already trimmed string alone. */
  lemma TrimProperties(s: string)
    ensures IsTrimmed(Trim(s))
    ensures forall c :: c in Trim(s) ==> c in s
    ensures IsTrimmed(s) ==> Trim(s) == s
  {
    var t := TrimStart(s);
    var r := TrimEnd(t);
    if r != [] {
      assert r[0] == t[0];
    }
    forall c | c in r ensures c in s {
      var k :| 0 <= k < |r| && r[k] == c;
      assert t[k] == c;
      assert s[|s| - |t| + k] == c;
    }
  }

  /** Trimming one blank prepended to a trimmed string gives the string back. */
  lemma TrimAfterBlank(s: string)
    requires IsTrimmed(s)
    ensures Trim(" " + s) == s
  {
    assert (" " + s)[1..] == s;
    assert TrimStart(" " + s) == TrimStart(s);
    TrimProperties(s);
  }

  // ---------------------------------------------------------------------
  // ASCII case mapping

  function LowerChar(c: char): char {
    if 'A' <= c <= 'Z' then (c as int + 32) as char else c
  }

  function UpperChar(c: char): char {
    if 'a' <= c <= 'z' then (c as int - 32) as char else c
  }

  /** `s.toLowerCase()` on ASCII. */
  function ToLower(s: string): (r: string)
    ensures |r| == |s|
    ensures forall i :: 0 <= i < |s| ==> r[i] == LowerChar(s[i])
  {
    seq(|s|, i requires 0 <= i < |s| => LowerChar(s[i]))
  }

  /** `s.toUpperCase()` on ASCII. */
  function ToUpper(s: string): (r: string)
    ensures |r| == |s|
    ensures forall i :: 0 <= i < |s| ==> r[i] == UpperChar(s[i])
  {
    seq(|s|, i requires 0 <= i < |s| => UpperChar(s[i]))
  }

  // ---------------------------------------------------------------------
  // substring search

  predicate StartsWith(s: string, p: string) {
    |p| <= |s| && s[..|p|] == p
  }

  /** `s.includes(p)`, by scanning the start positions from the left. */
  predicate Contains(s: string, p: string) {
    StartsWith(s, p) || (s != [] && Contains(s[1..], p))
  }

  /** `p` occurs in `s` starting at offset `i`. */
  predicate OccursAt(s: string, p: string, i: int) {
    0 <= i <= |s| - |p| && s[i..i + |p|] == p
  }

  /** The scan agrees with the textbook definition: `p` occurs at some offset. */
  lemma {:induction false} ContainsAtOffset(s: string, p: string)
    ensures Contains(s, p) <==> exists i :: OccursAt(s, p, i)
  {
    if StartsWith(s, p) {
      assert OccursAt(s, p, 0);
    } else if s == [] {
      assert forall i :: !OccursAt(s, p, i);
    } else {
      ContainsAtOffset(s[1..], p);
      if Contains(s, p) {
        var i :| OccursAt(s[1..], p, i);
        assert s[1..][i..i + |p|] == s[i + 1..i + 1 + |p|];
        assert OccursAt(s, p, i + 1);
      } else {
        forall i | OccursAt(s, p, i) ensures false {
          if i > 0 {
            assert 0 <= i - 1 <= |s[1..]| - |p|;
            assert s[1..][i - 1..i - 1 + |p|] == s[i..i + |p|];
            assert OccursAt(s[1..], p, i - 1);
          }
        }
      }
    }
  }

  /** Every string contains the empty string. */
  lemma ContainsEmpty(s: string)
    ensures Contains(s, "")
  {
    assert StartsWith(s, "");
  }

  /** A pattern whose first character never occurs in `s` is not contained in it. */
  lemma {:induction false} NotContainsFirstChar(s: string, p: string)
    requires p != [] && p[0] !in s
    ensures !Contains(s, p)
  {
    if s != [] {
      assert s[0] != p[0];
      NotContainsFirstChar(s[1..], p);
    }
  }

  // ---------------------------------------------------------------------
  // integers in template strings

  function DigitChar(d: nat): char
    requires d < 10
  {
    ('0' as int + d) as char
  }

  function DigitValue(c: char): int {
    c as int - '0' as int
  }

  predicate IsDigit(c: char) {
    '0' <= c <= '9'
  }

  /** Decimal digits of a natural number, without leading zeros. */
  function NatToString(n: nat): (s: string)
    ensures |s| >= 1
    ensures forall i :: 0 <= i < |s| ==> IsDigit(s[i])
  {
    if n < 10 then [DigitChar(n)] else NatToString(n / 10) + [DigitChar(n % 10)]
  }

  /** `String(i)` for an integer `i`. */
  function IntToString(i: int): (s: string)
    ensures |s| >= 1
    ensures forall k :: 0 <= k < |s| ==> s[k] != ' '
  {
    if i < 0 then "-" + NatToString(-i) else NatToString(i)
  }

  /** Value of a string of decimal digits. */
  function ParseNat(s: string): int {
    if s == [] then 0 else ParseNat(s[..|s| - 1]) * 10 + DigitValue(s[|s| - 1])
  }

  /** Reading the digits back gives the number. */
  lemma {:induction false} ParseNatToString(n: nat)
    ensures ParseNat(NatToString(n)) == n
  {
    if n >= 10 {
      var s := NatToString(n);
      assert s[..|s| - 1] == NatToString(n / 10);
      ParseNatToString(n / 10);
    }
  }

  /** Different counts are rendered differently. */
  lemma NatToStringInjective()
    ensures forall m: nat, n: nat :: NatToString(m) == NatToString(n) ==> m == n
  {
    forall m: nat, n: nat | NatToString(m) == NatToString(n)
      ensures m == n
    {
      ParseNatToString(m);
      ParseNatToString(n);
    }
  }

  /** Different integers are rendered differently. */
  lemma IntToStringInjective(i: int, j: int)
    requires IntToString(i) == IntToString(j)
    ensures i == j
  {
    LeadingMinus(i);
    LeadingMinus(j);
    ParseNatToString(if i < 0 then -i else i);
    ParseNatToString(if j < 0 then -j else j);
    if i < 0 {
      NegativeDigits(i);
      NegativeDigits(j);
    }
  }

  /** After its minus sign, a negative integer is rendered as its magnitude. */
  lemma NegativeDigits(i: int)
    requires i < 0
    ensures IntToString(i)[1..] == NatToString(-i)
  {
  }

  /** The rendering starts with a minus sign exactly for negative integers. */
  lemma LeadingMinus(i: int)
    ensures IntToString(i)[0] == '-' <==> i < 0
  {
    if i >= 0 {
      assert IsDigit(NatToString(i)[0]);
    }
  }
}
