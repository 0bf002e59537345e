/**
 * The metadata tree the analyser walks: the EXIF dictionary and the image
 * info dictionary an image library hands back, as an ordered Python value.
 * Dictionaries keep their insertion order as a sequence of (key, value)
 * pairs; keys are strings.
 */
module PyValue {
  import opened Wrappers
  import opened Text

  datatype Value =
    | Dict(entries: seq<(string, Value)>)
    /** a Python list, or a tuple when isTuple holds */
    | List(items: seq<Value>, isTuple: bool)
    | Str(s: string)
    /** an int, float or rational, with the text str() gives for it */
    | Num(n: real, text: string)
    /** any other leaf (None, bytes, ...), with its truth value and its str() text */
    | Other(truthy: bool, text: string)

  type Entries = seq<(string, Value)>

  /** Python truthiness: empty containers, the empty string and zero are false. */
  predicate Truthy(v: Value) {
    match v
    case Dict(es) => es != []
    case List(xs, _) => xs != []
    case Str(s) => s != []
    case Num(n, _) => n != 0.0
    case Other(t, _) => t
  }

  /** d.get(key): the value of the first entry with that key. */
  function Get(es: Entries, key: string): (r: Option<Value>)
    ensures r.None? <==> forall i :: 0 <= i < |es| ==> es[i].0 != key
    ensures r.Some? ==> exists i :: 0 <= i < |es| && es[i] == (key, r.value)
  {
    if es == [] then None
    else if es[0].0 == key then Some(es[0].1)
    else
      var r := Get(es[1..], key);
      assert forall i :: 1 <= i < |es| ==> es[i] == es[1..][i - 1];
      r
  }

  /** `key in d` */
  predicate HasKey(es: Entries, key: string) {
    Get(es, key).Some?
  }

  /** `key in d and d[key]` */
  predicate TruthyAt(es: Entries, key: string) {
    Get(es, key).Some? && Truthy(Get(es, key).value)
  }

  /**
   * repr(v) as str() of a container shows its elements: strings quoted with
   * single quotes, a one-element tuple with a trailing comma.
   */
  function Repr(v: Value): string
    decreases v, 2
  {
    match v
    case Str(s) => "'" + s + "'"
    case Num(_, t) => t
    case Other(_, t) => t
    case Dict(_) => "{" + ReprEntries(v, 0) + "}"
    case List(xs, tuple) =>
      if !tuple then "[" + ReprItems(v, 0) + "]"
      else if |xs| == 1 then "(" + ReprItems(v, 0) + ",)"
      else "(" + ReprItems(v, 0) + ")"
  }

  function ReprEntries(d: Value, i: nat): string
    requires d.Dict? && i <= |d.entries|
    decreases d, 1, |d.entries| - i
  {
    if i == |d.entries| then ""
    else
      (if i > 0 then ", " else "") + "'" + d.entries[i].0 + "': " + Repr(d.entries[i].1)
      + ReprEntries(d, i + 1)
  }

  function ReprItems(l: Value, i: nat): string
    requires l.List? && i <= |l.items|
    decreases l, 1, |l.items| - i
  {
    if i == |l.items| then ""
    else (if i > 0 then ", " else "") + Repr(l.items[i]) + ReprItems(l, i + 1)
  }

  /** str(v): a string is itself, anything else its repr. */
  function PyStr(v: Value): string {
    if v.Str? then v.s else Repr(v)
  }

  /**
   * float(v): a number converts to its value, a string to the decimal number
   * it spells (ParseFloat); any other value gives None.
   */
  function ToFloat(v: Value): (r: Option<real>)
    ensures v.Num? ==> r == Some(v.n)
    ensures r.Some? ==> v.Num? || v.Str?
  {
    match v
    case Num(n, _) => Some(n)
    case Str(s) => ParseFloat(s)
    case _ => None
  }

  /** 10 to the k. */
  function Pow10(k: nat): (r: nat)
    ensures r >= 1
  {
    if k == 0 then 1 else 10 * Pow10(k - 1)
  }

  predicate AllDigits(s: string) {
    forall i :: 0 <= i < |s| ==> '0' <= s[i] <= '9'
  }

  predicate IsPoint(c: char) {
    c == '.'
  }

  predicate IsExponentMark(c: char) {
    c == 'e' || c == 'E'
  }

  /** The index of the first character of s that p holds for, or |s| when there is none. */
  function FirstWhere(s: string, p: char -> bool): (i: nat)
    ensures i <= |s| && (forall k :: 0 <= k < i ==> !p(s[k])) && (i < |s| ==> p(s[i]))
    decreases |s|
  {
    if s == [] || p(s[0]) then 0 else 1 + FirstWhere(s[1..], p)
  }

  /** Digits, optionally a point and more digits, with at least one digit in all. */
  function Mantissa(m: string): Option<real> {
    var p := FirstWhere(m, IsPoint);
    var whole, frac := m[..p], if p < |m| then m[p + 1..] else "";
    if AllDigits(whole) && AllDigits(frac) && (whole != [] || frac != []) then Some(DecimalValue(whole, frac))
    else None
  }

  /** The value of whole-part and fraction digits: whole + fraction / 10^|fraction|. */
  function DecimalValue(whole: string, frac: string): real {
    DigitsValue(whole) as real + DigitsValue(frac) as real / Pow10(|frac|) as real
  }

  /** Digits after an optional sign. */
  function Exponent(e: string): Option<int> {
    var ds := if e != [] && (e[0] == '+' || e[0] == '-') then e[1..] else e;
    if IsDigits(ds) then Some(if e != [] && e[0] == '-' then -(DigitsValue(ds) as int) else DigitsValue(ds) as int) else None
  }

  /** x times 10 to the e. */
  function Scale(x: real, e: int): real {
    if e >= 0 then x * Pow10(e) as real else x / Pow10(-e) as real
  }

  /** A mantissa, optionally followed by "e" or "E" and an exponent. */
  function Unsigned(t: string): Option<real> {
    var k := FirstWhere(t, IsExponentMark);
    var m := Mantissa(t[..k]);
    if m.None? || k == |t| then m
    else
      match Exponent(t[k + 1..])
      case None => None
      case Some(e) => Some(Scale(m.value, e))
  }

  /** float(s) on a string: white space around an optionally signed decimal number. */
  function ParseFloat(s: string): Option<real> {
    ParseSigned(StripSpace(s))
  }

  /** An optionally signed decimal number. */
  function ParseSigned(body: string): Option<real> {
    var signed := body != [] && (body[0] == '+' || body[0] == '-');
    match Unsigned(if signed then body[1..] else body)
    case None => None
    case Some(x) => Some(if signed && body[0] == '-' then -x else x)
  }

  // ------------------------------------------------------------------
  // What float() accepts

  lemma {:induction false} FirstWhereNone(s: string, p: char -> bool)
    requires forall k :: 0 <= k < |s| ==> !p(s[k])
    ensures FirstWhere(s, p) == |s|
    decreases |s|
  {
    if s != [] {
      FirstWhereNone(s[1..], p);
    }
  }

  lemma {:induction false} FirstWhereAt(s: string, p: char -> bool, i: nat)
    requires i < |s| && p(s[i]) && forall k :: 0 <= k < i ==> !p(s[k])
    ensures FirstWhere(s, p) == i
    decreases i
  {
    if i > 0 {
      FirstWhereAt(s[1..], p, i - 1);
    }
  }

  /** Without an exponent mark the text is read as a mantissa alone. */
  lemma UnsignedNoExponent(t: string)
    requires forall k :: 0 <= k < |t| ==> !IsExponentMark(t[k])
    ensures Unsigned(t) == Mantissa(t)
  {
    FirstWhereNone(t, IsExponentMark);
    assert t[..|t|] == t;
  }

  /** Digits without a point or an exponent are the integer they spell. */
  lemma UnsignedInteger(a: string)
    requires IsDigits(a)
    ensures Unsigned(a) == Some(DigitsValue(a) as real)
  {
    UnsignedNoExponent(a);
    MantissaInteger(a);
    DecimalValueInteger(a);
  }

  lemma MantissaInteger(a: string)
    requires IsDigits(a)
    ensures Mantissa(a) == Some(DecimalValue(a, []))
  {
    FirstWhereNone(a, IsPoint);
    assert a[..|a|] == a;
  }

  lemma DecimalValueInteger(a: string)
    ensures DecimalValue(a, []) == DigitsValue(a) as real
  {
    assert DigitsValue([]) == 0 && Pow10(0) == 1;
  }

  lemma MantissaDecimal(a: string, b: string)
    requires AllDigits(a) && AllDigits(b) && (a != [] || b != [])
    ensures Mantissa(a + "." + b) == Some(DecimalValue(a, b))
  {
    var t := a + "." + b;
    FirstWhereAt(t, IsPoint, |a|);
    assert t[..|a|] == a && t[|a| + 1..] == b;
  }

  /** Digits, a point and digits are the whole part plus the fraction over 10^|fraction|. */
  lemma UnsignedDecimal(a: string, b: string)
    requires AllDigits(a) && AllDigits(b) && (a != [] || b != [])
    ensures Unsigned(a + "." + b) == Some(DecimalValue(a, b))
  {
    var t := a + "." + b;
    forall k | 0 <= k < |t| ensures !IsExponentMark(t[k]) {
      if k < |a| {
        assert t[k] == a[k];
      } else if k > |a| {
        assert t[k] == b[k - |a| - 1];
      }
    }
    UnsignedNoExponent(t);
    MantissaDecimal(a, b);
  }

  /** A mantissa with an exponent is scaled by ten to the exponent. */
  lemma UnsignedExponent(m: string, mark: char, e: string)
    requires IsExponentMark(mark) && forall k :: 0 <= k < |m| ==> !IsExponentMark(m[k])
    requires Mantissa(m).Some? && Exponent(e).Some?
    ensures Unsigned(m + [mark] + e) == Some(Scale(Mantissa(m).value, Exponent(e).value))
  {
    var t := m + [mark] + e;
    FirstWhereAt(t, IsExponentMark, |m|);
    assert t[..|m|] == m && t[|m| + 1..] == e;
  }

  /** An exponent is its digits, negated after "-". */
  lemma ExponentDigits(ds: string)
    requires IsDigits(ds)
    ensures Exponent(ds) == Some(DigitsValue(ds) as int)
    ensures Exponent("+" + ds) == Some(DigitsValue(ds) as int)
    ensures Exponent("-" + ds) == Some(-(DigitsValue(ds) as int))
  {
    assert ("+" + ds)[1..] == ds;
    assert ("-" + ds)[1..] == ds;
  }

  /** A number text without surrounding white space and without its own sign. */
  predicate Plain(t: string) {
    t != [] && !IsSpace(t[0]) && !IsSpace(t[|t| - 1]) && t[0] != '+' && t[0] != '-'
  }

  /** The negated conversion, still failing when the conversion fails. */
  function Negate(o: Option<real>): Option<real> {
    match o
    case None => None
    case Some(x) => Some(-x)
  }

  /** A plain text converts as its digits say; "-" in front negates, "+" changes nothing. */
  lemma ParseFloatSign(t: string)
    requires Plain(t)
    ensures ParseFloat(t) == Unsigned(t)
    ensures ParseFloat("+" + t) == Unsigned(t)
    ensures ParseFloat("-" + t) == Negate(Unsigned(t))
  {
    PlainUnstripped(t);
    ParseSignedSign(t);
  }

  lemma PlainUnstripped(t: string)
    requires Plain(t)
    ensures StripSpace(t) == t && StripSpace("+" + t) == "+" + t && StripSpace("-" + t) == "-" + t
  {
    StripKeepsPlain(t, IsSpace);
    SignedUnstripped('+', t);
    SignedUnstripped('-', t);
  }

  lemma SignedUnstripped(sign: char, t: string)
    requires (sign == '+' || sign == '-') && t != [] && !IsSpace(t[|t| - 1])
    ensures StripSpace([sign] + t) == [sign] + t
  {
    var p := [sign] + t;
    assert p[0] == sign && p[|p| - 1] == t[|t| - 1];
    StripKeepsPlain(p, IsSpace);
  }

  lemma ParseSignedSign(t: string)
    requires t != [] && t[0] != '+' && t[0] != '-'
    ensures ParseSigned(t) == Unsigned(t)
    ensures ParseSigned("+" + t) == Unsigned(t)
    ensures ParseSigned("-" + t) == Negate(Unsigned(t))
  {
    PlusSigned(t);
    MinusSigned(t);
  }

  lemma PlusSigned(t: string)
    ensures ParseSigned("+" + t) == Unsigned(t)
  {
    var body := "+" + t;
    assert body[0] == '+' && body[1..] == t;
  }

  lemma MinusSigned(t: string)
    ensures ParseSigned("-" + t) == Negate(Unsigned(t))
  {
    var body := "-" + t;
    assert body[0] == '-' && body[1..] == t;
  }

  /** White space before or after the text changes nothing. */
  lemma ParseFloatSpaces(s: string, c: char)
    requires IsSpace(c)
    ensures ParseFloat([c] + s) == ParseFloat(s)
    ensures ParseFloat(s + [c]) == ParseFloat(s)
  {
    StripCons(c, s, IsSpace);
    StripSnoc(s, c, IsSpace);
  }

  /** The characters a number text may hold once its white space is stripped. */
  predicate FloatChar(c: char) {
    '0' <= c <= '9' || c == '.' || c == 'e' || c == 'E' || c == '+' || c == '-'
  }

  lemma MantissaChars(m: string)
    requires Mantissa(m).Some?
    ensures forall i :: 0 <= i < |m| ==> '0' <= m[i] <= '9' || m[i] == '.'
  {
    var p := FirstWhere(m, IsPoint);
    forall i | 0 <= i < |m| ensures '0' <= m[i] <= '9' || m[i] == '.' {
      if i < p {
        assert m[..p][i] == m[i];
      } else if i > p {
        assert m[p + 1..][i - p - 1] == m[i];
      }
    }
  }

  lemma UnsignedChars(t: string)
    requires Unsigned(t).Some?
    ensures forall i :: 0 <= i < |t| ==> FloatChar(t[i])
  {
    var k := FirstWhere(t, IsExponentMark);
    MantissaChars(t[..k]);
    forall i | 0 <= i < |t| ensures FloatChar(t[i]) {
      if i < k {
        assert t[..k][i] == t[i];
      } else if i > k {
        assert t[k + 1..][i - k - 1] == t[i];
      }
    }
  }

  /**
   * A string converts only when, stripped of white space, it is made of
   * digits, points, exponent marks and signs: "abc" or "12 N" raise ValueError.
   */
  lemma ParseFloatChars(s: string)
    requires ParseFloat(s).Some?
    ensures forall i :: 0 <= i < |StripSpace(s)| ==> FloatChar(StripSpace(s)[i])
  {
    var body := StripSpace(s);
    var signed := body != [] && (body[0] == '+' || body[0] == '-');
    var t := if signed then body[1..] else body;
    UnsignedChars(t);
    forall i | 0 <= i < |body| ensures FloatChar(body[i]) {
      if signed && i > 0 {
        assert body[i] == t[i - 1];
      }
    }
  }

  /** A digit or a point is not white space. */
  lemma DecimalCharNotSpace(c: char)
    requires '0' <= c <= '9' || c == '.'
    ensures !IsSpace(c)
  {
  }

  /** A string of digits, optionally after "-", converts to the integer it spells. */
  lemma ParseFloatInteger(a: string)
    requires IsDigits(a)
    ensures ParseFloat(a) == Some(DigitsValue(a) as real)
    ensures ParseFloat("-" + a) == Negate(ParseFloat(a))
  {
    DecimalCharNotSpace(a[0]);
    DecimalCharNotSpace(a[|a| - 1]);
    ParseFloatSign(a);
    UnsignedInteger(a);
  }

  /** Digits, a point and digits, such as "12.5", convert to whole + fraction / 10^|fraction|. */
  lemma ParseFloatDecimal(a: string, b: string)
    requires IsDigits(a) && IsDigits(b)
    ensures ParseFloat(a + "." + b) == Some(DecimalValue(a, b))
    ensures ParseFloat("-" + (a + "." + b)) == Negate(ParseFloat(a + "." + b))
  {
    var t := a + "." + b;
    assert t[0] == a[0] && t[|t| - 1] == b[|b| - 1];
    DecimalCharNotSpace(a[0]);
    DecimalCharNotSpace(b[|b| - 1]);
    ParseFloatSign(t);
    UnsignedDecimal(a, b);
  }

  /** str(n) of a natural number converts back to n. */
  lemma ParseFloatNatToString(n: nat)
    ensures ParseFloat(NatToString(n)) == Some(n as real)
  {
    ParseFloatInteger(NatToString(n));
    NatToStringRoundTrip(n);
  }
}
