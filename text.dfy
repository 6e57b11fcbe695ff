/** The JavaScript string operations the application relies on: `trim`,
  * `toLowerCase`/`toUpperCase`, `includes`, `startsWith`, `split` and
  * number-to-text conversion. Strings are sequences of characters. */
module Text {
  import opened Outcome

  /** The characters `String.prototype.trim` removes: the ECMAScript
    * WhiteSpace and LineTerminator code points. */
  predicate IsSpace(c: char)
  {
    c == ' ' || c == '\t' || c == '\n' || c == '\r' || c == '\U{000B}' || c == '\U{000C}'
    || c == '\U{00A0}' || c == '\U{1680}' || ('\U{2000}' <= c <= '\U{200A}')
    || c == '\U{2028}' || c == '\U{2029}' || c == '\U{202F}' || c == '\U{205F}'
    || c == '\U{3000}' || c == '\U{FEFF}'
  }

  predicate IsBlank(s: string)
  {
    forall i :: 0 <= i < |s| ==> IsSpace(s[i])
  }

  /** The index of the first character at or after `i` that is not white
    * space, `|s|` when there is none. */
  function SkipSpaces(s: string, i: nat): (k: nat)
    requires i <= |s|
    ensures i <= k <= |s|
    ensures k == |s| || !IsSpace(s[k])
    decreases |s| - i
  {
    if i < |s| && IsSpace(s[i]) then SkipSpaces(s, i + 1) else i
  }

  /** Everything `SkipSpaces` passes over is white space. */
  lemma {:induction false} SkipSpacesPassesSpaces(s: string, i: nat)
    requires i <= |s|
    ensures forall j :: i <= j < SkipSpaces(s, i) ==> IsSpace(s[j])
    decreases |s| - i
  {
    if i < |s| && IsSpace(s[i]) {
      SkipSpacesPassesSpaces(s, i + 1);
    }
  }

  /** The index just after the last character before `n` that is not white
    * space, `0` when there is none. */
  function SkipSpacesBack(s: string, n: nat): (k: nat)
    requires n <= |s|
    ensures k <= n
    ensures k == 0 || !IsSpace(s[k - 1])
  {
    if n > 0 && IsSpace(s[n - 1]) then SkipSpacesBack(s, n - 1) else n
  }

  /** Everything `SkipSpacesBack` passes over is white space. */
  lemma {:induction false} SkipSpacesBackPassesSpaces(s: string, n: nat)
    requires n <= |s|
    ensures forall j :: SkipSpacesBack(s, n) <= j < n ==> IsSpace(s[j])
  {
    if n > 0 && IsSpace(s[n - 1]) {
      SkipSpacesBackPassesSpaces(s, n - 1);
    }
  }

  /** `s` without its leading white space. */
  function TrimStart(s: string): (r: string)
    ensures |r| <= |s|
    ensures r == [] || !IsSpace(r[0])
  {
    s[SkipSpaces(s, 0)..]
  }

  /** What `TrimStart` drops is a prefix made only of white space, and
    * what it keeps is the rest of `s`. */
  lemma TrimStartDrops(s: string)
    ensures forall i :: 0 <= i < |s| - |TrimStart(s)| ==> IsSpace(s[i])
    ensures forall i :: 0 <= i < |TrimStart(s)| ==> TrimStart(s)[i] == s[|s| - |TrimStart(s)| + i]
  {
    SkipSpacesPassesSpaces(s, 0);
  }

  /** `s` without its trailing white space. */
  function TrimEnd(s: string): (r: string)
    ensures |r| <= |s|
    ensures r == [] || !IsSpace(r[|r| - 1])
  {
    s[..SkipSpacesBack(s, |s|)]
  }

  /** What `TrimEnd` drops is a suffix made only of white space, and what
    * it keeps is the start of `s`. */
  lemma TrimEndDrops(s: string)
    ensures forall i :: |TrimEnd(s)| <= i < |s| ==> IsSpace(s[i])
    ensures forall i :: 0 <= i < |TrimEnd(s)| ==> TrimEnd(s)[i] == s[i]
  {
    SkipSpacesBackPassesSpaces(s, |s|);
  }

  /** `String.prototype.trim`. */
  function Trim(s: string): (r: string)
    ensures |r| <= |s|
    ensures r != [] ==> !IsSpace(r[0]) && !IsSpace(r[|r| - 1])
  {
    TrimEndDrops(TrimStart(s));
    TrimEnd(TrimStart(s))
  }

  /** What `trim` keeps is a contiguous piece of the input with no white
    * space at either end, and everything it drops is white space. */
  lemma TrimSpec(s: string)
    ensures Contains(s, Trim(s))
    ensures Trim(s) == [] || (!IsSpace(Trim(s)[0]) && !IsSpace(Trim(s)[|Trim(s)| - 1]))
    ensures var k := |s| - |TrimStart(s)|;
            && k + |Trim(s)| <= |s|
            && Trim(s) == s[k..k + |Trim(s)|]
            && IsBlank(s[..k]) && IsBlank(s[k + |Trim(s)|..])
  {
    TrimKeepsMiddle(s);
    TrimDropsBlank(s);
    assert OccursAt(s, Trim(s), |s| - |TrimStart(s)|);
  }

  /** `trim` keeps the piece of `s` that follows the leading white space. */
  lemma TrimKeepsMiddle(s: string)
    ensures var k := |s| - |TrimStart(s)|;
            k + |Trim(s)| <= |s| && Trim(s) == s[k..k + |Trim(s)|]
  {
    var a := TrimStart(s);
    var k := |s| - |a|;
    var t := Trim(s);
    TrimStartDrops(s);
    TrimEndDrops(a);
    forall i | 0 <= i < |t|
      ensures s[k..k + |t|][i] == t[i]
    {
      assert t[i] == a[i] == s[k + i];
    }
  }

  /** What `trim` drops on either side of that piece is white space. */
  lemma TrimDropsBlank(s: string)
    ensures var k := |s| - |TrimStart(s)|;
            k + |Trim(s)| <= |s| && IsBlank(s[..k]) && IsBlank(s[k + |Trim(s)|..])
  {
    var a := TrimStart(s);
    var k := |s| - |a|;
    var t := Trim(s);
    TrimStartDrops(s);
    TrimEndDrops(a);
    var rest := s[k + |t|..];
    forall i | 0 <= i < |rest|
      ensures IsSpace(rest[i])
    {
      assert IsSpace(a[|t| + i]);
      assert a[|t| + i] == s[k + |t| + i];
    }
    var front := s[..k];
    forall i | 0 <= i < |front|
      ensures IsSpace(front[i])
    {
      assert IsSpace(s[i]);
    }
  }

  /** `!s.trim()` holds exactly for strings made only of white space. */
  lemma {:induction false} TrimEmptyIffBlank(s: string)
    ensures Trim(s) == [] <==> IsBlank(s)
  {
    var a := TrimStart(s);
    var k := |s| - |a|;
    var t := TrimEnd(a);
    TrimStartDrops(s);
    TrimEndDrops(a);
    if a != [] {
      assert a[0] == s[k];
    }
  }

  /** Upper-case letter to lower case for ASCII and Latin-1. */
  function LowerChar(c: char): char
  {
    if 'A' <= c <= 'Z' then (c as int + 32) as char
    else if 'À' <= c <= 'Þ' && c != '×' then (c as int + 32) as char
    else c
  }

  /** Lower-case letter to upper case for ASCII and Latin-1. */
  function UpperChar(c: char): char
  {
    if 'a' <= c <= 'z' then (c as int - 32) as char
    else if 'à' <= c <= 'þ' && c != '÷' then (c as int - 32) as char
    else c
  }

  /** `toLowerCase`. */
  function Lower(s: string): (r: string)
    ensures |r| == |s|
    ensures forall i :: 0 <= i < |s| ==> r[i] == LowerChar(s[i])
  {
    seq(|s|, i requires 0 <= i < |s| => LowerChar(s[i]))
  }

  /** `toUpperCase`. */
  function Upper(s: string): (r: string)
    ensures |r| == |s|
    ensures forall i :: 0 <= i < |s| ==> r[i] == UpperChar(s[i])
  {
    seq(|s|, i requires 0 <= i < |s| => UpperChar(s[i]))
  }

  lemma UpperCharIdempotent(c: char)
    ensures UpperChar(UpperChar(c)) == UpperChar(c)
  {
  }

  /** Upper-casing twice is upper-casing once. */
  lemma UpperIdempotent(s: string)
    ensures Upper(Upper(s)) == Upper(s)
  {
    forall i | 0 <= i < |s| ensures Upper(Upper(s))[i] == Upper(s)[i] {
      UpperCharIdempotent(s[i]);
    }
  }

  /** `needle` occurs in `hay` starting at position `k`. */
  predicate OccursAt(hay: string, needle: string, k: int)
  {
    0 <= k <= |hay| - |needle| && hay[k..k + |needle|] == needle
  }

  /** `String.prototype.includes`. */
  function Contains(hay: string, needle: string): (r: bool)
    ensures r ==> |needle| <= |hay|
    ensures needle == hay ==> r
  {
    assert needle == hay ==> OccursAt(hay, needle, 0);
    exists k :: 0 <= k <= |hay| - |needle| && OccursAt(hay, needle, k)
  }

  lemma ContainsEmpty(hay: string)
    ensures Contains(hay, "")
  {
    assert OccursAt(hay, "", 0);
  }

  /** A string contains itself and whatever it is concatenated into. */
  lemma ContainsInfix(a: string, needle: string, b: string)
    ensures Contains(a + needle + b, needle)
  {
    var h := a + needle + b;
    assert h[|a|..|a| + |needle|] == needle;
    assert OccursAt(h, needle, |a|);
  }

  /** Whatever a string contains, any string around it contains too. */
  lemma ContainsWithin(a: string, h: string, b: string, needle: string)
    requires Contains(h, needle)
    ensures Contains(a + h + b, needle)
  {
    var k :| 0 <= k <= |h| - |needle| && OccursAt(h, needle, k);
    var w := a + h + b;
    assert w[|a| + k..|a| + k + |needle|] == h[k..k + |needle|];
    assert OccursAt(w, needle, |a| + k);
  }

  /** `a || b` on strings: the empty string counts as false. */
  function Or(a: string, b: string): (r: string)
    ensures a != "" ==> r == a
    ensures a == "" ==> r == b
  {
    if a != "" then a else b
  }

  /** `s || b` on an optional string: missing and empty both give `b`. */
  function OrElse(s: Option<string>, b: string): (r: string)
    ensures s.Some? && s.value != "" ==> r == s.value
    ensures s.None? || s.value == "" ==> r == b
  {
    if s.Some? then Or(s.value, b) else b
  }

  /** `String.prototype.startsWith`. */
  predicate StartsWith(s: string, prefix: string)
  {
    |prefix| <= |s| && s[..|prefix|] == prefix
  }

  lemma StartsWithAppend(prefix: string, rest: string)
    ensures StartsWith(prefix + rest, prefix)
  {
    assert (prefix + rest)[..|prefix|] == prefix;
  }

  /** `String.prototype.split` on a one-character separator. */
  function Split(s: string, sep: char): (r: seq<string>)
    ensures |r| >= 1
    ensures forall i :: 0 <= i < |r| ==> sep !in r[i]
  {
    if s == [] then [""]
    else
      var rest := Split(s[1..], sep);
      if s[0] == sep then [""] + rest
      else [[s[0]] + rest[0]] + rest[1..]
  }

  /** `Array.prototype.join` with a one-character separator. */
  function Join(parts: seq<string>, sep: char): string
  {
    if parts == [] then ""
    else if |parts| == 1 then parts[0]
    else parts[0] + [sep] + Join(parts[1..], sep)
  }

  /** Every piece is contained in the joined text. */
  lemma {:induction false} JoinContains(parts: seq<string>, sep: char, k: int)
    requires 0 <= k < |parts|
    ensures Contains(Join(parts, sep), parts[k])
  {
    if |parts| == 1 {
      ContainsInfix("", parts[0], "");
      assert "" + parts[0] + "" == parts[0];
    } else if k == 0 {
      ContainsInfix("", parts[0], [sep] + Join(parts[1..], sep));
      assert "" + parts[0] + ([sep] + Join(parts[1..], sep)) == Join(parts, sep);
    } else {
      JoinContains(parts[1..], sep, k - 1);
      ContainsWithin(parts[0] + [sep], Join(parts[1..], sep), "", parts[k]);
      assert parts[0] + [sep] + Join(parts[1..], sep) + "" == Join(parts, sep);
    }
  }

  /** A template literal: the fixed parts with the values between them,
    * `parts[0] + values[0] + parts[1] + ... + parts[|values|]`. */
  function Fill(parts: seq<string>, values: seq<string>): string
    requires |parts| == |values| + 1
  {
    FillFrom(parts, values, 0)
  }

  /** The template from fixed part `i` on:
    * `parts[i] + values[i] + ... + parts[|values|]`. */
  function FillFrom(parts: seq<string>, values: seq<string>, i: nat): string
    requires |parts| == |values| + 1 && i <= |values|
    decreases |values| - i
  {
    if i == |values| then parts[i] else parts[i] + values[i] + FillFrom(parts, values, i + 1)
  }

  /** A filled template starts with its first fixed part and ends with its
    * last, so trimming a template whose first and last parts are free of
    * white space at their outer ends never reaches a value. */
  lemma FillStartsAndEnds(parts: seq<string>, values: seq<string>)
    requires |parts| == |values| + 1
    ensures StartsWith(Fill(parts, values), parts[0])
    ensures var r := Fill(parts, values); var z := parts[|parts| - 1];
            |z| <= |r| && r[|r| - |z|..] == z
  {
    FillFromStartsAndEnds(parts, values, 0);
  }

  lemma {:induction false} FillFromStartsAndEnds(parts: seq<string>, values: seq<string>, i: nat)
    requires |parts| == |values| + 1 && i <= |values|
    ensures StartsWith(FillFrom(parts, values, i), parts[i])
    ensures var r := FillFrom(parts, values, i); var z := parts[|parts| - 1];
            |z| <= |r| && r[|r| - |z|..] == z
    decreases |values| - i
  {
    if i < |values| {
      var rest := FillFrom(parts, values, i + 1);
      FillFromStartsAndEnds(parts, values, i + 1);
      var r := parts[i] + values[i] + rest;
      assert r == FillFrom(parts, values, i);
      assert r[..|parts[i]|] == parts[i];
      assert r[|r| - |rest|..] == rest;
    }
  }

  /** Every value filled into a template occurs in the text. */
  lemma FillContains(parts: seq<string>, values: seq<string>, k: int)
    requires |parts| == |values| + 1
    requires 0 <= k < |values|
    ensures Contains(Fill(parts, values), values[k])
  {
    FillFromContains(parts, values, 0, k);
  }

  lemma {:induction false} FillFromContains(parts: seq<string>, values: seq<string>, i: nat, k: int)
    requires |parts| == |values| + 1
    requires i <= k < |values|
    ensures Contains(FillFrom(parts, values, i), values[k])
    decreases k - i
  {
    var rest := FillFrom(parts, values, i + 1);
    assert FillFrom(parts, values, i) == parts[i] + values[i] + rest;
    if k == i {
      ContainsInfix(parts[i], values[i], rest);
    } else {
      FillFromContains(parts, values, i + 1, k);
      ContainsWithin(parts[i] + values[i], rest, "", values[k]);
      assert parts[i] + values[i] + rest + "" == FillFrom(parts, values, i);
    }
  }

  /** Whatever a fixed part of a template contains, the filled text
    * contains too. */
  lemma FillContainsPart(parts: seq<string>, values: seq<string>, k: int, needle: string)
    requires |parts| == |values| + 1
    requires 0 <= k < |parts| && Contains(parts[k], needle)
    ensures Contains(Fill(parts, values), needle)
  {
    FillFromContainsPart(parts, values, 0, k, needle);
  }

  lemma {:induction false} FillFromContainsPart(parts: seq<string>, values: seq<string>, i: nat, k: int,
                                                needle: string)
    requires |parts| == |values| + 1 && i <= |values|
    requires i <= k < |parts| && Contains(parts[k], needle)
    ensures Contains(FillFrom(parts, values, i), needle)
    decreases |values| - i
  {
    if i < |values| {
      var rest := FillFrom(parts, values, i + 1);
      var whole := FillFrom(parts, values, i);
      assert whole == parts[i] + values[i] + rest;
      if k == i {
        ContainsWithin("", parts[i], values[i] + rest, needle);
        assert "" + parts[i] + (values[i] + rest) == whole;
      } else {
        FillFromContainsPart(parts, values, i + 1, k, needle);
        ContainsWithin(parts[i] + values[i], rest, "", needle);
        assert parts[i] + values[i] + rest + "" == whole;
      }
    }
  }

  /** Joining the pieces of a split gives back the original string. */
  lemma {:induction false} JoinSplit(s: string, sep: char)
    ensures Join(Split(s, sep), sep) == s
  {
    if s != [] {
      var rest := Split(s[1..], sep);
      JoinSplit(s[1..], sep);
      if s[0] == sep {
        assert Split(s, sep) == [""] + rest;
        assert ([""] + rest)[1..] == rest;
        assert s == "" + [sep] + s[1..];
      } else {
        var r := [[s[0]] + rest[0]] + rest[1..];
        assert Split(s, sep) == r;
        if |rest| == 1 {
          assert rest == [rest[0]];
        } else {
          assert r[1..] == rest[1..];
          assert Join(rest, sep) == rest[0] + [sep] + Join(rest[1..], sep);
        }
      }
    }
  }

  /** A string holding the separator splits into at least two pieces. */
  lemma {:induction false} SplitAtSeparator(s: string, sep: char)
    requires sep in s
    ensures |Split(s, sep)| >= 2
  {
    if s[0] != sep {
      assert sep in s[1..];
      SplitAtSeparator(s[1..], sep);
    }
  }

  /** A first piece free of the separator comes off the front unchanged. */
  lemma {:induction false} SplitFirstPiece(a: string, sep: char, rest: string)
    requires sep !in a
    ensures Split(a + [sep] + rest, sep) == [a] + Split(rest, sep)
  {
    var s := a + [sep] + rest;
    if a == [] {
      assert s[0] == sep && s[1..] == rest;
    } else {
      assert s[0] == a[0] && s[0] != sep;
      assert s[1..] == a[1..] + [sep] + rest;
      SplitFirstPiece(a[1..], sep, rest);
      assert [a[0]] + a[1..] == a;
    }
  }

  /** A string without the separator splits into itself alone. */
  lemma {:induction false} SplitWithoutSeparator(s: string, sep: char)
    requires sep !in s
    ensures Split(s, sep) == [s]
  {
    if s != [] {
      SplitWithoutSeparator(s[1..], sep);
      assert s[0] != sep;
      assert Split(s, sep) == [[s[0]] + s[1..]];
      assert [s[0]] + s[1..] == s;
    }
  }

  function DigitChar(d: nat): char
    requires d < 10
  {
    ('0' as int + d) as char
  }

  /** Decimal text of a natural number, as template literals print it. */
  function NatToString(n: nat): (r: string)
    ensures |r| >= 1
    ensures forall i :: 0 <= i < |r| ==> '0' <= r[i] <= '9'
  {
    if n < 10 then [DigitChar(n)] else NatToString(n / 10) + [DigitChar(n % 10)]
  }

  function DigitValue(c: char): nat
    requires '0' <= c <= '9'
  {
    (c as int) - ('0' as int)
  }

  /** Reads decimal digits back as a number. */
  function ParseNat(s: string): nat
    requires forall i :: 0 <= i < |s| ==> '0' <= s[i] <= '9'
  {
    if s == [] then 0 else 10 * ParseNat(s[..|s| - 1]) + DigitValue(s[|s| - 1])
  }

  /** Printing a number and reading it back gives the number. */
  lemma {:induction false} ParsePrinted(n: nat)
    ensures ParseNat(NatToString(n)) == n
  {
    var s := NatToString(n);
    if n >= 10 {
      assert s[..|s| - 1] == NatToString(n / 10);
      ParsePrinted(n / 10);
    }
    assert DigitValue(s[|s| - 1]) == n % 10;
  }

  /** Decimal text of an integer, with a minus sign when negative. */
  function IntToString(n: int): (r: string)
    ensures |r| >= 1
  {
    if n < 0 then "-" + NatToString(-n) else NatToString(n)
  }
}
