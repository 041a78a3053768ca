/** The few Python string operations the modelled code relies on:
    `str.find`/`in`, `str.split(sep)`, `sep.join`, `str.strip()`,
    `str.rstrip(c)`, `str.upper()`, `int()` on text and `f"{n}"` on integers. */
module Strings {
  import opened Common

  // ---------------------------------------------------------------------------
  // Searching

  /** `pat` occurs in `s` starting at index `i`. */
  predicate OccursAt(s: string, pat: string, i: int) {
    0 <= i && i + |pat| <= |s| && s[i..i + |pat|] == pat
  }

  /** The first index at which `pat` occurs in `s` (Python's `s.find(pat)`, with -1 as None). */
  function Find(s: string, pat: string): (r: Option<nat>)
    requires |pat| > 0
    ensures r.Some? ==> OccursAt(s, pat, r.value)
    ensures r.Some? ==> forall j :: 0 <= j < r.value ==> !OccursAt(s, pat, j)
    ensures r.None? ==> forall j :: 0 <= j ==> !OccursAt(s, pat, j)
    decreases |s|
  {
    if |s| < |pat| then None
    else if s[..|pat|] == pat then Some(0)
    else
      var rest := Find(s[1..], pat);
      assert !OccursAt(s, pat, 0);
      assert forall j :: 1 <= j ==> (OccursAt(s, pat, j) <==> OccursAt(s[1..], pat, j - 1)) by {
        forall j | 1 <= j
          ensures OccursAt(s, pat, j) <==> OccursAt(s[1..], pat, j - 1)
        {
          if j + |pat| <= |s| {
            assert s[1..][j - 1..j - 1 + |pat|] == s[j..j + |pat|];
          }
        }
      }
      match rest
      case None => None
      case Some(i) => Some(i + 1)
  }

  /** Python's `pat in s`. */
  predicate Contains(s: string, pat: string)
    requires |pat| > 0
  {
    Find(s, pat).Some?
  }

  lemma ContainsIff(s: string, pat: string)
    requires |pat| > 0
    ensures Contains(s, pat) <==> exists j :: OccursAt(s, pat, j)
  {
    if Contains(s, pat) {
      assert OccursAt(s, pat, Find(s, pat).value);
    }
  }

  /** A string in which the character `c` does not appear. */
  predicate Free(s: string, c: char) {
    forall i :: 0 <= i < |s| ==> s[i] != c
  }

  // ---------------------------------------------------------------------------
  // Splitting and joining

  /** Python's `s.split(sep)` for a non-empty separator. */
  function Split(s: string, sep: string): (parts: seq<string>)
    requires |sep| > 0
    ensures |parts| >= 1
    decreases |s|
  {
    match Find(s, sep)
    case None => [s]
    case Some(i) => [s[..i]] + Split(s[i + |sep|..], sep)
  }

  /** Python's `sep.join(parts)`. */
  function Join(parts: seq<string>, sep: string): string {
    if |parts| == 0 then ""
    else if |parts| == 1 then parts[0]
    else parts[0] + sep + Join(parts[1..], sep)
  }

  /** Joining the pieces of a split with the same separator gives back the string. */
  lemma {:induction false} JoinSplit(s: string, sep: string)
    requires |sep| > 0
    ensures Join(Split(s, sep), sep) == s
    decreases |s|
  {
    match Find(s, sep)
    case None =>
    case Some(i) =>
      var head, rest := s[..i], s[i + |sep|..];
      var tail := Split(rest, sep);
      assert Split(s, sep) == [head] + tail;
      JoinSplit(rest, sep);
      JoinCons(head, tail, sep);
      assert s == head + sep + rest by {
        assert s[i..i + |sep|] == sep;
        assert s == s[..i] + s[i..i + |sep|] + s[i + |sep|..];
      }
  }

  lemma JoinCons(head: string, tail: seq<string>, sep: string)
    requires |tail| >= 1
    ensures Join([head] + tail, sep) == head + sep + Join(tail, sep)
  {
    assert ([head] + tail)[1..] == tail;
  }

  /** No piece of a split contains the separator. */
  lemma {:induction false} SplitPiecesAreSeparatorFree(s: string, sep: string)
    requires |sep| > 0
    ensures forall k :: 0 <= k < |Split(s, sep)| ==> !Contains(Split(s, sep)[k], sep)
    decreases |s|
  {
    match Find(s, sep)
    case None =>
    case Some(i) =>
      var rest := s[i + |sep|..];
      SplitPiecesAreSeparatorFree(rest, sep);
      var head := s[..i];
      if Contains(head, sep) {
        var j := Find(head, sep).value;
        assert s[j..j + |sep|] == head[j..j + |sep|];
        assert OccursAt(s, sep, j);
        assert false;
      }
  }

  /** When no piece contains the separator's first character, splitting a
      join recovers exactly the pieces. */
  lemma {:induction false} SplitJoin(parts: seq<string>, sep: string)
    requires |sep| > 0 && |parts| >= 1
    requires forall k :: 0 <= k < |parts| ==> Free(parts[k], sep[0])
    ensures Split(Join(parts, sep), sep) == parts
    decreases |parts|
  {
    var s := Join(parts, sep);
    var p := parts[0];
    if |parts| == 1 {
      assert s == p;
      FreeHasNoOccurrence(s, sep);
      assert Find(s, sep).None?;
    } else {
      var rest := Join(parts[1..], sep);
      assert s == p + sep + rest;
      assert OccursAt(s, sep, |p|) by {
        assert s[|p|..|p| + |sep|] == sep;
      }
      forall j | 0 <= j < |p|
        ensures !OccursAt(s, sep, j)
      {
        assert s[j] == p[j];
        if j + |sep| <= |s| {
          assert s[j..j + |sep|][0] == s[j];
        }
      }
      assert Find(s, sep) == Some(|p|);
      assert s[..|p|] == p;
      assert s[|p| + |sep|..] == rest;
      SplitJoin(parts[1..], sep);
    }
  }

  /** Two pieces free of `c`, joined by `c`, split back into the two. */
  lemma SplitPair(a: string, b: string, c: char)
    requires Free(a, c) && Free(b, c)
    ensures Split(a + [c] + b, [c]) == [a, b]
  {
    assert [a, b][1..] == [b];
    assert Join([a, b], [c]) == a + [c] + b;
    SplitJoin([a, b], [c]);
  }

  /** The middle of `head + mid + tail`, cut out by the lengths of the ends. */
  lemma SliceBetween(head: string, mid: string, tail: string)
    ensures var s := head + mid + tail;
      && |s| == |head| + |mid| + |tail|
      && s[..|head|] == head && s[|s| - |tail|..] == tail && s[|head|..|s| - |tail|] == mid
  {
  }

  lemma FreeHasNoOccurrence(s: string, sep: string)
    requires |sep| > 0 && Free(s, sep[0])
    ensures forall j :: 0 <= j ==> !OccursAt(s, sep, j)
  {
    forall j | 0 <= j
      ensures !OccursAt(s, sep, j)
    {
      if j + |sep| <= |s| {
        assert s[j..j + |sep|][0] == s[j];
      }
    }
  }

  /** The first piece of a split on one character: the longest prefix free
      of that character, followed in `s` by the character unless it is all of `s`. */
  lemma SplitHead(s: string, c: char)
    ensures var h := Split(s, [c])[0];
      h <= s && Free(h, c) && (|h| == |s| || s[|h|] == c)
  {
    match Find(s, [c])
    case None =>
      forall j | 0 <= j < |s| ensures s[j] != c {
        assert !OccursAt(s, [c], j);
        assert s[j..j + 1] == [s[j]];
      }
    case Some(i) =>
      assert s[i..i + 1] == [c];
      forall j | 0 <= j < i ensures s[j] != c {
        assert !OccursAt(s, [c], j);
        assert s[j..j + 1] == [s[j]];
      }
  }

  /** The number of occurrences of `c` in `s`. */
  function CountChar(s: string, c: char): nat {
    if s == [] then 0 else (if s[0] == c then 1 else 0) + CountChar(s[1..], c)
  }

  /** Splitting on a one-character separator yields one more piece than
      there are occurrences of that character. */
  lemma {:induction false} SplitCount(s: string, c: char)
    ensures |Split(s, [c])| == CountChar(s, c) + 1
    decreases |s|
  {
    match Find(s, [c])
    case None =>
      assert CountChar(s, c) == 0 by { NoOccurrenceNoCount(s, c); }
    case Some(i) =>
      SplitCount(s[i + 1..], c);
      CountSplitAt(s, c, i);
  }

  lemma {:induction false} NoOccurrenceNoCount(s: string, c: char)
    requires forall j :: 0 <= j ==> !OccursAt(s, [c], j)
    ensures CountChar(s, c) == 0
    decreases |s|
  {
    if s != [] {
      assert !OccursAt(s, [c], 0);
      assert s[0..1] == [s[0]];
      forall j | 0 <= j
        ensures !OccursAt(s[1..], [c], j)
      {
        assert !OccursAt(s, [c], j + 1);
        if j + 1 <= |s| - 1 {
          assert s[1..][j..j + 1] == s[j + 1..j + 2];
        }
      }
      NoOccurrenceNoCount(s[1..], c);
    }
  }

  lemma {:induction false} CountSplitAt(s: string, c: char, i: nat)
    requires Find(s, [c]) == Some(i)
    ensures CountChar(s, c) == CountChar(s[i + 1..], c) + 1
    decreases i
  {
    assert s[i..i + 1] == [s[i]];
    if i == 0 {
      assert s[1..] == s[i + 1..];
    } else {
      assert !OccursAt(s, [c], 0);
      assert s[0..1] == [s[0]];
      assert Find(s[1..], [c]) == Some(i - 1);
      CountSplitAt(s[1..], c, i - 1);
      assert s[1..][i..] == s[i + 1..];
    }
  }

  // ---------------------------------------------------------------------------
  // Trimming and case

  /** Python's `str.isspace()` for one character. */
  predicate IsSpace(c: char) {
    c == ' ' || ('\t' <= c <= '\r') || ('\U{1C}' <= c <= '\U{1F}')
    || c == '\U{85}' || c == '\U{A0}' || c == '\U{1680}'
    || ('\U{2000}' <= c <= '\U{200A}') || c == '\U{2028}' || c == '\U{2029}'
    || c == '\U{202F}' || c == '\U{205F}' || c == '\U{3000}'
  }

  /** `s` with its trailing characters satisfying `IsSpace` removed. */
  function StripEnd(s: string): (r: string)
    ensures r <= s
    ensures forall i :: |r| <= i < |s| ==> IsSpace(s[i])
    ensures r == [] || !IsSpace(r[|r| - 1])
  {
    if s == [] || !IsSpace(s[|s| - 1]) then s else StripEnd(s[..|s| - 1])
  }

  /** `s` with its leading characters satisfying `IsSpace` removed. */
  function StripStart(s: string): (r: string)
    ensures |r| <= |s| && r == s[|s| - |r|..]
    ensures forall i :: 0 <= i < |s| - |r| ==> IsSpace(s[i])
    ensures r == [] || !IsSpace(r[0])
  {
    if s == [] || !IsSpace(s[0]) then s else StripStart(s[1..])
  }

  /** `r` is `s[a..b]` and everything outside `a..b` is whitespace. */
  predicate PaddedBy(s: string, r: string, a: int, b: int) {
    && 0 <= a <= b <= |s| && r == s[a..b]
    && (forall i :: 0 <= i < a ==> IsSpace(s[i]))
    && (forall i :: b <= i < |s| ==> IsSpace(s[i]))
  }

  /** Python's `s.strip()`: the infix whose ends are not whitespace,
      everything around it being whitespace. */
  function Strip(s: string): (r: string)
    ensures exists a, b :: PaddedBy(s, r, a, b)
    ensures r == [] || (!IsSpace(r[0]) && !IsSpace(r[|r| - 1]))
  {
    var e := StripEnd(s);
    var r := StripStart(e);
    StripWitness(s, e, r);
    r
  }

  lemma StripWitness(s: string, e: string, r: string)
    requires e <= s && forall i :: |e| <= i < |s| ==> IsSpace(s[i])
    requires |r| <= |e| && r == e[|e| - |r|..] && forall i :: 0 <= i < |e| - |r| ==> IsSpace(e[i])
    ensures PaddedBy(s, r, |e| - |r|, |e|)
  {
    assert e == s[..|e|];
  }

  /** A string of whitespace only strips to the empty string. */
  lemma StripBlank(s: string)
    requires forall i :: 0 <= i < |s| ==> IsSpace(s[i])
    ensures Strip(s) == ""
  {
  }

  /** Python's `s.rstrip(c)`: every trailing `c` removed. */
  function StripTrailing(s: string, c: char): (r: string)
    ensures r <= s
    ensures forall i :: |r| <= i < |s| ==> s[i] == c
    ensures r == [] || r[|r| - 1] != c
  {
    if s == [] || s[|s| - 1] != c then s else StripTrailing(s[..|s| - 1], c)
  }

  /** Python's `str.upper()` on one character, for the ASCII letters. */
  function UpperChar(c: char): (u: char)
    ensures 'a' <= c <= 'z' ==> 'A' <= u <= 'Z' && u as int == c as int - 32
    ensures !('a' <= c <= 'z') ==> u == c
  {
    if 'a' <= c <= 'z' then (c as int - 32) as char else c
  }

  function Upper(s: string): (u: string)
    ensures |u| == |s|
    ensures forall i :: 0 <= i < |s| ==> u[i] == UpperChar(s[i])
  {
    if s == [] then [] else [UpperChar(s[0])] + Upper(s[1..])
  }

  // ---------------------------------------------------------------------------
  // Integers as decimal text

  predicate IsDigit(c: char) {
    '0' <= c <= '9'
  }

  function DigitChar(d: nat): (c: char)
    requires d < 10
    ensures IsDigit(c) && c as int - '0' as int == d
  {
    ('0' as int + d) as char
  }

  /** The number a string of decimal digits denotes. */
  function DigitsValue(s: string): nat
    requires forall i :: 0 <= i < |s| ==> IsDigit(s[i])
  {
    if s == [] then 0
    else
      var last := s[|s| - 1];
      assert IsDigit(last);
      DigitsValue(s[..|s| - 1]) * 10 + (last as int - '0' as int)
  }

  /** `f"{n}"` for a natural number: decimal digits without leading zeros. */
  function NatToString(n: nat): (r: string)
    ensures |r| >= 1
    ensures forall i :: 0 <= i < |r| ==> IsDigit(r[i])
    ensures r[0] == '0' ==> n == 0
    ensures DigitsValue(r) == n
  {
    if n < 10 then [DigitChar(n)]
    else
      var h := NatToString(n / 10);
      var r := h + [DigitChar(n % 10)];
      assert r[..|r| - 1] == h;
      r
  }

  /** `f"{n}"` for any integer. */
  function IntToString(n: int): (r: string) {
    if n < 0 then "-" + NatToString(-n) else NatToString(n)
  }

  /** The rendering of an integer holds only digits and a leading minus. */
  lemma IntTextFree(n: int, c: char)
    requires c != '-' && !IsDigit(c)
    ensures Free(IntToString(n), c)
  {
    var d := NatToString(if n < 0 then -n else n);
    assert forall i :: 0 <= i < |d| ==> IsDigit(d[i]);
    if n < 0 {
      assert forall i :: 1 <= i < |IntToString(n)| ==> IntToString(n)[i] == d[i - 1];
    }
  }

  /** The digits of `s`, underscores dropped. */
  function Digits(s: string): (d: string)
    ensures forall i :: 0 <= i < |d| ==> d[i] != '_'
    ensures (forall i :: 0 <= i < |s| ==> IsDigit(s[i]) || s[i] == '_') ==>
      forall i :: 0 <= i < |d| ==> IsDigit(d[i])
  {
    if s == [] then []
    else (if s[0] == '_' then [] else [s[0]]) + Digits(s[1..])
  }

  /** What Python's `int()` accepts after the sign: digits, with single
      underscores allowed between two digits. */
  predicate DigitGroups(s: string) {
    && |s| > 0
    && IsDigit(s[0]) && IsDigit(s[|s| - 1])
    && (forall i :: 0 <= i < |s| ==> IsDigit(s[i]) || s[i] == '_')
    && (forall i :: 0 <= i < |s| - 1 ==> !(s[i] == '_' && s[i + 1] == '_'))
  }

  /** The value of unsigned digit groups, None when `body` is not one. */
  function ParseUnsigned(body: string): Option<int> {
    if DigitGroups(body) then Some(DigitsValue(Digits(body)) as int) else None
  }

  /** Python's `int()` on text that is already stripped. */
  function ParseSigned(t: string): Option<int> {
    if |t| > 0 && t[0] == '-' then
      match ParseUnsigned(t[1..])
      case Some(v) => Some(-v)
      case None => None
    else if |t| > 0 && t[0] == '+' then ParseUnsigned(t[1..])
    else ParseUnsigned(t)
  }

  /** Python's `int(s)` on text, base 10: surrounding whitespace, an optional
      sign, then digit groups; None where Python raises ValueError. */
  function ParseInt(s: string): Option<int> {
    ParseSigned(Strip(s))
  }

  lemma {:induction false} DigitsOfDigits(s: string)
    requires forall i :: 0 <= i < |s| ==> IsDigit(s[i])
    ensures Digits(s) == s
  {
    if s != [] {
      DigitsOfDigits(s[1..]);
    }
  }

  /** A string that neither starts nor ends with whitespace is its own strip. */
  lemma StripUnpadded(s: string)
    requires s != [] && !IsSpace(s[0]) && !IsSpace(s[|s| - 1])
    ensures Strip(s) == s
  {
    assert StripEnd(s) == s;
    assert StripStart(s) == s;
  }

  /** `int(f"{n}") == n`: the decimal rendering parses back to the integer. */
  lemma ParseIntToString(n: int)
    ensures ParseInt(IntToString(n)) == Some(n)
  {
    if n < 0 {
      var d := NatToString(-n);
      ParseUnsignedRun(d);
      ParseNegatedDigits(d, -n);
    } else {
      ParseUnsignedDigits(NatToString(n));
    }
  }

  /** A run of digits is one digit group, and its digits are itself. */
  lemma DigitRun(d: string)
    requires |d| > 0 && forall i :: 0 <= i < |d| ==> IsDigit(d[i])
    ensures DigitGroups(d) && Digits(d) == d
  {
    assert IsDigit(d[0]) && IsDigit(d[|d| - 1]);
    DigitsOfDigits(d);
  }

  /** A run of digits reads as the number it denotes. */
  lemma ParseUnsignedRun(d: string)
    requires |d| > 0 && forall i :: 0 <= i < |d| ==> IsDigit(d[i])
    ensures ParseUnsigned(d) == Some(DigitsValue(d) as int)
  {
    DigitRun(d);
  }

  /** Without its sign, a run of digits reads as the number it denotes. */
  lemma ParseSignedDigits(d: string)
    requires |d| > 0 && forall i :: 0 <= i < |d| ==> IsDigit(d[i])
    ensures ParseSigned(d) == Some(DigitsValue(d) as int)
  {
    ParseUnsignedRun(d);
    assert !(d[0] == '+' || d[0] == '-');
  }

  /** `int()` reads a run of digits as the number they denote. */
  lemma ParseUnsignedDigits(d: string)
    requires |d| > 0 && forall i :: 0 <= i < |d| ==> IsDigit(d[i])
    ensures ParseInt(d) == Some(DigitsValue(d) as int)
  {
    assert !IsSpace(d[0]) && !IsSpace(d[|d| - 1]);
    StripUnpadded(d);
    ParseSignedDigits(d);
  }

  /** With a minus sign, a run of digits reads as the negated number. */
  lemma ParseSignedNegated(d: string, v: int)
    requires ParseUnsigned(d) == Some(v)
    ensures ParseSigned("-" + d) == Some(-v)
  {
    assert ("-" + d)[1..] == d;
  }

  /** A minus sign followed by a run of digits is its own strip. */
  lemma StripNegatedRun(d: string)
    requires |d| > 0 && forall i :: 0 <= i < |d| ==> IsDigit(d[i])
    ensures Strip("-" + d) == "-" + d
  {
    var s := "-" + d;
    assert s[|s| - 1] == d[|d| - 1];
    assert !IsSpace(s[0]) && !IsSpace(s[|s| - 1]);
    StripUnpadded(s);
  }

  /** `int()` reads a minus sign followed by digits as the negated number. */
  lemma ParseNegatedDigits(d: string, v: int)
    requires |d| > 0 && forall i :: 0 <= i < |d| ==> IsDigit(d[i])
    requires ParseUnsigned(d) == Some(v)
    ensures ParseInt("-" + d) == Some(-v)
  {
    StripNegatedRun(d);
    ParseSignedNegated(d, v);
  }

  /** The decimal rendering of an integer is non-empty and has no
      surrounding whitespace. */
  lemma IntToStringUnpadded(n: int)
    ensures IntToString(n) != [] && Strip(IntToString(n)) == IntToString(n)
  {
    var s := IntToString(n);
    var d := NatToString(if n < 0 then -n else n);
    assert IsDigit(d[|d| - 1]) && s[|s| - 1] == d[|d| - 1];
    StripUnpadded(s);
  }

  // ---------------------------------------------------------------------------
  // Paths

  /** The index of the last `/` in `p`, -1 when there is none. */
  function LastSlash(p: string): (k: int)
    ensures -1 <= k < |p|
    ensures k >= 0 ==> p[k] == '/'
    ensures forall i :: k < i < |p| ==> p[i] != '/'
  {
    if p == [] then -1
    else if p[|p| - 1] == '/' then |p| - 1
    else LastSlash(p[..|p| - 1])
  }

  /** Python's `os.path.basename(p)`: the text after the last `/`. */
  function Basename(p: string): (b: string)
    ensures Free(b, '/')
    ensures |b| <= |p| && p[|p| - |b|..] == b
    ensures |b| < |p| ==> p[|p| - |b| - 1] == '/'
  {
    p[LastSlash(p) + 1..]
  }
}
