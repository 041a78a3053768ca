/** The Python values the DB and mail integrations keep in the dicts they
    build themselves (configuration dicts, database rows, template data),
    with Python's truthiness and `str()`. */
module Values {
  import opened Common
  import opened Strings

  /** A `float` is kept only where it has at most two decimals (the rounded
      failure rate), as its count of hundredths. */
  datatype Value =
    | NoneValue
    | Str(s: string)
    | Int(n: int)
    | Bool(b: bool)
    | Float2(hundredths: int)

  predicate Truthy(v: Value) {
    match v
    case NoneValue => false
    case Str(s) => s != ""
    case Int(n) => n != 0
    case Bool(b) => b
    case Float2(h) => h != 0
  }

  /** A dict of such values. */
  type Dict = map<string, Value>

  /** `d.get(key, default)`. */
  function Get(d: Dict, key: string, default: Value): (v: Value)
    ensures key in d ==> v == d[key]
    ensures key !in d ==> v == default
  {
    if key in d then d[key] else default
  }

  /** The dict a Python dict display builds from its key-value pairs: a
      later pair for a key replaces an earlier one. */
  function DictOf(pairs: seq<(string, Value)>): Dict
    decreases |pairs|
  {
    if pairs == [] then map[]
    else
      var last := pairs[|pairs| - 1];
      DictOf(pairs[..|pairs| - 1])[last.0 := last.1]
  }

  /** The dict holds exactly the keys of the pairs. */
  lemma {:induction false} DictOfKeys(pairs: seq<(string, Value)>)
    ensures forall k :: k in DictOf(pairs) <==> k in Keys(pairs)
    decreases |pairs|
  {
    if pairs != [] {
      var init := pairs[..|pairs| - 1];
      DictOfKeys(init);
      assert Keys(pairs) == Keys(init) + [pairs[|pairs| - 1].0] by {
        assert |Keys(pairs)| == |Keys(init)| + 1;
        forall i | 0 <= i < |pairs| ensures Keys(pairs)[i] == (Keys(init) + [pairs[|pairs| - 1].0])[i] {
          if i < |init| {
            assert pairs[i] == init[i];
          }
        }
      }
    }
  }

  /** A key maps to the value of its last pair. */
  lemma {:induction false} DictOfValue(pairs: seq<(string, Value)>, i: nat)
    requires i < |pairs|
    requires forall j :: i < j < |pairs| ==> pairs[j].0 != pairs[i].0
    ensures pairs[i].0 in DictOf(pairs) && DictOf(pairs)[pairs[i].0] == pairs[i].1
    decreases |pairs|
  {
    if i < |pairs| - 1 {
      var init := pairs[..|pairs| - 1];
      assert init[i] == pairs[i];
      DictOfValue(init, i);
    }
  }

  /** The text of a float with at most two decimals, as `str()` prints it:
      at least one digit after the point, no trailing zero beyond it. */
  function FloatText(h: int): (t: string)
    ensures |t| >= 3
    ensures t[0] == '-' <==> h < 0
    ensures t[|t| - 1] != '0' || h % 10 == 0
  {
    var m: nat := if h < 0 then -h else h;
    var tenths, rest := (m % 100) / 10, m % 10;
    (if h < 0 then "-" else "") + NatToString(m / 100) + "." + Decimals(tenths, rest)
  }

  /** The text of a two-decimal float reads back as its value: after the
      sign, the part before `.` is the whole part of |h| / 100, and the one
      or two decimals, padded to two digits, are the hundredths. */
  lemma FloatTextReadsBack(h: int)
    ensures var t, m := FloatText(h), if h < 0 then -h else h;
      var parts := Split(if h < 0 then t[1..] else t, ".");
      && |parts| == 2
      && ParseInt(parts[0]) == Some(m / 100)
      && (|parts[1]| == 1 || |parts[1]| == 2) && ParseInt(parts[1]).Some?
      && ParseInt(parts[1]).value * (if |parts[1]| == 1 then 10 else 1) == m % 100
  {
    var t := FloatText(h);
    var m: nat := if h < 0 then -h else h;
    var u := NatToString(m / 100) + "." + Decimals((m % 100) / 10, m % 10);
    assert t == (if h < 0 then "-" else "") + u;
    assert (if h < 0 then t[1..] else t) == u;
    UnsignedReadsBack(m);
  }

  /** The unsigned part of the text: the whole part, the point, the decimals. */
  lemma UnsignedReadsBack(m: nat)
    ensures var parts := Split(NatToString(m / 100) + "." + Decimals((m % 100) / 10, m % 10), ".");
      && |parts| == 2
      && ParseInt(parts[0]) == Some(m / 100)
      && (|parts[1]| == 1 || |parts[1]| == 2) && ParseInt(parts[1]).Some?
      && ParseInt(parts[1]).value * (if |parts[1]| == 1 then 10 else 1) == m % 100
  {
    var tenths, rest := (m % 100) / 10, m % 10;
    assert m % 100 == tenths * 10 + rest;
    PointReadsBack(m / 100, tenths, rest);
  }

  lemma PointReadsBack(w: nat, tenths: nat, rest: nat)
    requires tenths < 10 && rest < 10
    ensures var parts := Split(NatToString(w) + "." + Decimals(tenths, rest), ".");
      && |parts| == 2
      && ParseInt(parts[0]) == Some(w)
      && (|parts[1]| == 1 || |parts[1]| == 2) && ParseInt(parts[1]).Some?
      && ParseInt(parts[1]).value * (if |parts[1]| == 1 then 10 else 1) == tenths * 10 + rest
  {
    WholeSplit(w, Decimals(tenths, rest));
    ParseIntToString(w);
    DecimalsValue(tenths, rest);
  }

  /** The one or two decimals `FloatText` prints: the tenths, then the
      hundredths unless they are 0. */
  function Decimals(tenths: nat, rest: nat): (frac: string)
    requires tenths < 10 && rest < 10
    ensures |frac| == 1 || |frac| == 2
    ensures forall i :: 0 <= i < |frac| ==> IsDigit(frac[i])
  {
    if rest == 0 then [DigitChar(tenths)] else [DigitChar(tenths), DigitChar(rest)]
  }

  /** The decimals read back, padded to two digits, as tenths and hundredths. */
  lemma DecimalsValue(tenths: nat, rest: nat)
    requires tenths < 10 && rest < 10
    ensures var frac := Decimals(tenths, rest);
      ParseInt(frac).Some? && ParseInt(frac).value * (if |frac| == 1 then 10 else 1) == tenths * 10 + rest
  {
    if rest == 0 {
      OneDigitValue(tenths);
    } else {
      TwoDigitValue(tenths, rest);
    }
  }

  lemma OneDigitValue(a: nat)
    requires a < 10
    ensures ParseInt([DigitChar(a)]) == Some(a)
  {
    var s := [DigitChar(a)];
    assert s[..0] == [];
    assert DigitsValue(s) == a;
    ParseUnsignedDigits(s);
  }

  lemma TwoDigitValue(a: nat, b: nat)
    requires a < 10 && b < 10
    ensures ParseInt([DigitChar(a), DigitChar(b)]) == Some(a * 10 + b)
  {
    var s := [DigitChar(a), DigitChar(b)];
    assert s[..1] == [DigitChar(a)] && s[..1][..0] == [];
    assert DigitsValue(s[..1]) == a;
    assert DigitsValue(s) == a * 10 + b;
    ParseUnsignedDigits(s);
  }

  /** The whole part and the decimals split back around the point. */
  lemma WholeSplit(n: nat, frac: string)
    requires forall i :: 0 <= i < |frac| ==> IsDigit(frac[i])
    ensures Split(NatToString(n) + "." + frac, ".") == [NatToString(n), frac]
  {
    IntTextFree(n, '.');
    assert Free(frac, '.');
    SplitPair(NatToString(n), frac, '.');
  }

  /** Python's `str(v)`. */
  function Text(v: Value): string {
    match v
    case NoneValue => "None"
    case Str(s) => s
    case Int(n) => IntToString(n)
    case Bool(b) => if b then "True" else "False"
    case Float2(h) => FloatText(h)
  }

  /** A whole number of percent prints with one zero decimal, `50.0`. */
  lemma FloatTextWhole(h: nat)
    requires h % 100 == 0
    ensures FloatText(h) == NatToString(h / 100) + ".0"
  {
    assert (h % 100) / 10 == 0 && h % 10 == 0;
  }

  /** The text of an integer value reads back as that integer, and a string
      value is its own text. */
  lemma TextRoundTrip(v: Value)
    ensures v.Int? ==> ParseInt(Text(v)) == Some(v.n)
    ensures v.Str? ==> Text(v) == v.s
  {
    if v.Int? {
      ParseIntToString(v.n);
    }
  }
}
