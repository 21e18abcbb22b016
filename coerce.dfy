/** The three ways the converters turn a raw cell into a typed value. */
module Coerce {
  import opened PyValues
  import opened Tree

  /** `parse_value` on a string (main4.py:13-29, main7.py:14-26, main8.py:11-18,
      main11.py:10-17): the stripped text, lower-cased, decides `true`/`false`
      first; then `int()`, then `float()`, and otherwise the stripped text. */
  function ParseText(s: string): (r: Value)
    ensures r == B(true) <==> Lower(Strip(s)) == "true"
    ensures r == B(false) <==> Lower(Strip(s)) == "false"
    ensures r.N? <==> Lower(Strip(s)) != "true" && Lower(Strip(s)) != "false" && IntLiteral(Strip(s)).Some?
    ensures r.N? ==> IntLiteral(Strip(s)) == Some(r.n)
    ensures r.F? ==> r.f == Float(Strip(s)) && IsFloatLiteral(Strip(s))
    ensures r.Str? <==>
      Lower(Strip(s)) != "true" && Lower(Strip(s)) != "false" &&
      IntLiteral(Strip(s)).None? && !IsFloatLiteral(Strip(s))
    ensures r.Str? ==> r.s == Strip(s)
  {
    var t := Strip(s);
    if Lower(t) == "true" then B(true)
    else if Lower(t) == "false" then B(false)
    else match IntLiteral(t)
      case Some(i) => N(i)
      case None => if IsFloatLiteral(t) then F(Float(t)) else Str(t)
  }

  /** `parse_value(val)`: strings are parsed, every other value (a number, a
      bool, `None`) is returned as it is. */
  function ParseValue(val: Node): (r: Node)
    ensures !(val.Scalar? && val.v.Str?) ==> r == val
    ensures r.Scalar? <==> val.Scalar?
    ensures val.Scalar? && val.v.Str? && r.v.Str? ==> r.v.s == Strip(val.v.s)
  {
    match val
    case Scalar(Str(s)) => Scalar(ParseText(s))
    case _ => val
  }

  /** `parse_value` never needs a second pass: its output parses to itself. */
  lemma ParseValueIdempotent(val: Node)
    ensures ParseValue(ParseValue(val)) == ParseValue(val)
  {
    match val
    case Scalar(Str(s)) =>
      var r := ParseText(s);
      if r.Str? {
        StripIdempotent(s);
      }
    case _ =>
  }

  /** The text `str()` gives for an int parses back to that int. */
  lemma ParsesPrintedInt(i: int)
    ensures ParseText(IntToDecimal(i)) == N(i)
  {
    var t := IntToDecimal(i);
    assert t != [] && (IsDigit(t[0]) || t[0] == '-');
    StripKeeps(t);
    IntLiteralOfDecimal(i);
    assert Lower(t)[0] == t[0];
  }

  /** Every spelling of a bool that differs from its word only in case parses
      back to that bool: HCL's `true`/`false`, Python's `str()` (`True`/`False`)
      and a spreadsheet's `TRUE`/`FALSE` alike. */
  lemma ParsesPrintedBool(b: bool, s: string)
    requires Lower(s) == (if b then "true" else "false")
    ensures ParseText(s) == B(b)
  {
    assert LowerChar(s[0]) == Lower(s)[0] && LowerChar(s[|s| - 1]) == Lower(s)[|s| - 1];
    assert !IsSpace(s[0]) && !IsSpace(s[|s| - 1]);
    StripKeeps(s);
  }

  /** The digits before the point of an unsigned plain decimal text
      (`3.75`), or `None` for any other text (`nan`, `inf`, `1e+16`). */
  function WholePart(u: string): (r: Option<nat>)
    ensures r.Some? ==> IsDecimalFloat(u)
  {
    var a := DigitRun(u);
    if 0 < a < |u| && u[a] == '.' && IsDigitString(u[a + 1..]) then
      assert u[a..][1..] == u[a + 1..];
      DigitRunAll(u[a + 1..]);
      Some(DigitsValue(u[..a]))
    else None
  }

  /** `int(x)` for a float `x` printed in plain decimal notation (`-3.75`):
      the digits before the point with the sign, which is truncation toward
      zero. */
  function TruncatedFloat(t: string): Option<int> {
    match WholePart(DropSign(t))
    case None => None
    case Some(d) =>
      var n: int := d;
      Some(if t[0] == '-' then -n else n)
  }

  lemma DigitRunAll(s: string)
    requires AllDigits(s)
    ensures DigitRun(s) == |s|
  {
    if s != [] {
      DigitRunAll(s[1..]);
    }
  }

  lemma DigitRunPrefix(w: string, rest: string)
    requires AllDigits(w) && rest != [] && !IsDigit(rest[0])
    ensures DigitRun(w + rest) == |w|
  {
    if w != [] {
      assert (w + rest)[1..] == w[1..] + rest;
      DigitRunPrefix(w[1..], rest);
    }
  }

  lemma WholePartOf(w: string, fraction: string)
    requires IsDigitString(w) && IsDigitString(fraction)
    ensures WholePart(w + "." + fraction) == Some(DigitsValue(w))
  {
    var u := w + "." + fraction;
    assert u == w + ("." + fraction);
    DigitRunPrefix(w, "." + fraction);
    assert u[..|w|] == w && u[|w|] == '.' && u[|w| + 1..] == fraction;
  }

  /** `int()` of the float printed as `<i>.<fraction>` gives back `i`, on
      either side of zero. */
  lemma TruncatesToWholePart(i: int, fraction: string)
    requires IsDigitString(fraction)
    ensures TruncatedFloat(IntToDecimal(i) + "." + fraction) == Some(i)
  {
    var d: nat := if i < 0 then -i else i;
    var w := NatToDecimal(d);
    var u := w + "." + fraction;
    WholePartOf(w, fraction);
    assert u[0] == w[0];
    assert IntToDecimal(i) + "." + fraction == (if i < 0 then "-" else "") + u;
    TruncatedSigned(i < 0, u, d);
  }

  /** A sign in front of an unsigned decimal text carries over to `int()`. */
  lemma TruncatedSigned(neg: bool, u: string, d: nat)
    requires WholePart(u) == Some(d) && u != [] && IsDigit(u[0])
    ensures TruncatedFloat((if neg then "-" else "") + u) == Some(if neg then -(d as int) else d)
  {
    var t := (if neg then "-" else "") + u;
    if neg {
      assert t[0] == '-' && t[1..] == u;
    } else {
      assert t == u;
    }
  }

  /** The coercion of 6.py (lines 24-30) and main.py (lines 22-28):
      `int(value)`, else `float(value)`, else the value unchanged (a string
      that is not a number is kept as it is, unstripped). `int()` of a float
      cell truncates it. */
  function CoerceNumber(v: Value): (r: Value)
    ensures v.Str? && IntLiteral(Strip(v.s)).Some? ==> r == N(IntLiteral(Strip(v.s)).value)
    ensures v.Str? && IntLiteral(Strip(v.s)).None? ==>
      r == if IsFloatLiteral(Strip(v.s)) then F(Float(Strip(v.s))) else v
    ensures v.B? ==> r == N(if v.b then 1 else 0)
    ensures v.N? ==> r == v
    ensures v.F? ==> r == match TruncatedFloat(v.f.repr) case Some(i) => N(i) case None => v
  {
    match v
    case Str(s) =>
      var t := Strip(s);
      if IntLiteral(t).Some? then N(IntLiteral(t).value)
      else if IsFloatLiteral(t) then F(Float(t)) else v
    case B(b) => N(if b then 1 else 0)
    case F(f) => if TruncatedFloat(f.repr).Some? then N(TruncatedFloat(f.repr).value) else v
    case N(_) => v
  }

  /** A float cell `i.fraction` is stored as the int `i`, and a number given
      as text keeps its fraction: `int()` truncates floats but rejects text. */
  lemma FloatCellTruncated(i: int, fraction: string)
    requires IsDigitString(fraction)
    ensures CoerceNumber(F(Float(IntToDecimal(i) + "." + fraction))) == N(i)
    ensures CoerceNumber(Str(IntToDecimal(i) + "." + fraction)).F?
  {
    var t := IntToDecimal(i) + "." + fraction;
    TruncatesToWholePart(i, fraction);
    assert IsDecimalFloat(DropSign(t));
    StripKeeps(t);
    assert Strip(t) == t by {
      assert !IsSpace(t[0]) && !IsSpace(t[|t| - 1]);
    }
    assert IntLiteral(t).None? by {
      assert '.' in t;
    }
  }

  /** On text that is a number, the two coercers agree; they differ only on
      `true`/`false` and on the spaces around text they keep. */
  lemma CoercersAgreeOnNumbers(s: string)
    requires IntLiteral(Strip(s)).Some? || IsFloatLiteral(Strip(s))
    requires Lower(Strip(s)) != "true" && Lower(Strip(s)) != "false"
    ensures ParseValue(Scalar(Str(s))) == Scalar(CoerceNumber(Str(s)))
  {
  }

  /** The coercion of 5.py (lines 77-78): only a string of digits becomes an int. */
  function CoerceDigits(v: Value): (r: Value)
    ensures r != v <==> v.Str? && IsDigitString(v.s)
    ensures r != v ==> r == N(DigitsValue(v.s))
  {
    if v.Str? && IsDigitString(v.s) then N(DigitsValue(v.s)) else v
  }

  /** Every string 5.py turns into an int, 6.py and main.py turn into the same int. */
  lemma DigitsAreNumbers(v: Value)
    requires CoerceDigits(v) != v
    ensures CoerceNumber(v) == CoerceDigits(v)
  {
    var s := v.s;
    StripKeeps(s);
  }
}
