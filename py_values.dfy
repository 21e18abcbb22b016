/** Python values as the spreadsheet readers hand them to the converters, and the
    pieces of Python's built-in string behaviour the converters rely on:
    `str.strip`, `str.lower`, `str.split`, `str.isdigit`, `str.join`, `int()`,
    `float()` and `str()`. Characters are modelled as ASCII (see README). */
module PyValues {

  datatype Option<T> = None | Some(value: T)

  /** `Raises` is a Python exception (TypeError, AttributeError, KeyError) that
      escapes to the top of the script and stops it. */
  datatype Result<T> = Ok(value: T) | Raises

  /** A Python float, kept opaque: only the text `str()` prints for it is held. */
  datatype Float = Float(repr: string)

  /** The scalar kinds a cell or a coerced cell can hold. */
  datatype Value = B(b: bool) | N(n: int) | F(f: Float) | Str(s: string)

  /** A spreadsheet cell: a value, or `None` for an empty cell. */
  datatype Cell = Full(v: Value) | Blank

  // ---------------------------------------------------------------------------
  // Character classes

  /** Python's ASCII whitespace: space, \t \n \v \f \r and the separators \x1c-\x1f. */
  predicate IsSpace(c: char) {
    c == ' ' || (9 <= c as int <= 13) || (28 <= c as int <= 31)
  }

  predicate IsDigit(c: char) {
    '0' <= c <= '9'
  }

  /** The characters of the regular-expression class `\w`. */
  predicate IsWordChar(c: char) {
    ('a' <= c <= 'z') || ('A' <= c <= 'Z') || IsDigit(c) || c == '_'
  }

  predicate AllDigits(s: string) {
    forall i :: 0 <= i < |s| ==> IsDigit(s[i])
  }

  /** `str.isdigit()`: non-empty and made of digits only. */
  predicate IsDigitString(s: string) {
    s != [] && AllDigits(s)
  }

  // ---------------------------------------------------------------------------
  // str.strip() and str.lower()

  function StripLeft(s: string): (r: string)
    ensures |r| <= |s|
    ensures r == [] || !IsSpace(r[0])
  {
    if s != [] && IsSpace(s[0]) then StripLeft(s[1..]) else s
  }

  function StripRight(s: string): (r: string)
    ensures |r| <= |s|
    ensures r == [] || !IsSpace(r[|r| - 1])
  {
    if s != [] && IsSpace(s[|s| - 1]) then StripRight(s[..|s| - 1]) else s
  }

  /** What `lstrip` keeps is a suffix of the text. */
  lemma {:induction false} StripLeftSuffix(s: string)
    ensures StripLeft(s) == s[|s| - |StripLeft(s)|..]
  {
    if s != [] && IsSpace(s[0]) {
      StripLeftSuffix(s[1..]);
    }
  }

  /** What `rstrip` keeps is a prefix of the text. */
  lemma {:induction false} StripRightPrefix(s: string)
    ensures StripRight(s) == s[..|StripRight(s)|]
  {
    if s != [] && IsSpace(s[|s| - 1]) {
      StripRightPrefix(s[..|s| - 1]);
    }
  }

  /** `str.strip()`: drops leading and trailing whitespace, keeps the middle. */
  function Strip(s: string): (r: string)
    ensures r == [] || (!IsSpace(r[0]) && !IsSpace(r[|r| - 1]))
  {
    StripRightPrefix(StripLeft(s));
    StripRight(StripLeft(s))
  }

  /** Stripping text that neither starts nor ends with whitespace keeps it. */
  lemma StripKeeps(s: string)
    requires s == [] || (!IsSpace(s[0]) && !IsSpace(s[|s| - 1]))
    ensures Strip(s) == s
  {
  }

  lemma StripIdempotent(s: string)
    ensures Strip(Strip(s)) == Strip(s)
  {
    StripKeeps(Strip(s));
  }

  function LowerChar(c: char): char {
    if 'A' <= c <= 'Z' then (c as int + 32) as char else c
  }

  /** `str.lower()` on ASCII letters. */
  function Lower(s: string): (r: string)
    ensures |r| == |s|
  {
    seq(|s|, i requires 0 <= i < |s| => LowerChar(s[i]))
  }

  // ---------------------------------------------------------------------------
  // str.split(sep) and sep.join(parts)

  /** `s.split(sep)` for a one-character separator: every separator splits,
      so empty pieces are kept and there is always at least one piece. */
  function Split(s: string, sep: char): (parts: seq<string>)
    ensures |parts| >= 1
    ensures forall i :: 0 <= i < |parts| ==> sep !in parts[i]
  {
    if s == [] then [""]
    else
      var rest := Split(s[1..], sep);
      if s[0] == sep then [""] + rest else [[s[0]] + rest[0]] + rest[1..]
  }

  /** `sep.join(parts)`. */
  function Join(parts: seq<string>, sep: string): string {
    if |parts| == 0 then ""
    else if |parts| == 1 then parts[0]
    else parts[0] + sep + Join(parts[1..], sep)
  }

  /** A join starts with the first piece and ends with the last one. */
  lemma JoinEnds(parts: seq<string>, sep: string)
    requires parts != [] && parts[0] != [] && parts[|parts| - 1] != []
    ensures var j := Join(parts, sep);
      j != [] && j[0] == parts[0][0] && j[|j| - 1] == parts[|parts| - 1][|parts[|parts| - 1]| - 1]
  {
    JoinLast(parts, sep);
  }

  lemma {:induction false} JoinLast(parts: seq<string>, sep: string)
    requires parts != [] && parts[|parts| - 1] != []
    ensures var j := Join(parts, sep);
      j != [] && j[|j| - 1] == parts[|parts| - 1][|parts[|parts| - 1]| - 1]
    decreases |parts|
  {
    if |parts| > 1 {
      JoinLast(parts[1..], sep);
    }
  }

  /** Joining two runs of pieces is joining each and putting the separator
      between them. */
  lemma {:induction false} JoinAppend(a: seq<string>, b: seq<string>, sep: string)
    requires a != [] && b != []
    ensures Join(a + b, sep) == Join(a, sep) + sep + Join(b, sep)
    decreases |a|
  {
    if |a| == 1 {
      assert (a + b)[1..] == b;
    } else {
      assert (a + b)[1..] == a[1..] + b;
      JoinAppend(a[1..], b, sep);
    }
  }

  /** Splitting and joining back with the same separator gives the text back. */
  lemma {:induction false} SplitJoin(s: string, sep: char)
    ensures Join(Split(s, sep), [sep]) == s
  {
    if s != [] {
      var rest := Split(s[1..], sep);
      SplitJoin(s[1..], sep);
      if s[0] != sep {
        if |rest| == 1 {
          assert Join(Split(s, sep), [sep]) == [s[0]] + rest[0];
        } else {
          assert Split(s, sep)[1..] == rest[1..];
          assert Join(Split(s, sep), [sep]) == [s[0]] + rest[0] + [sep] + Join(rest[1..], [sep]);
        }
      }
    }
  }

  // ---------------------------------------------------------------------------
  // Decimal digits, int() and str() of an int

  function DigitValue(c: char): nat
    requires IsDigit(c)
  {
    c as int - '0' as int
  }

  function DigitChar(d: nat): (c: char)
    requires d < 10
    ensures IsDigit(c) && DigitValue(c) == d
  {
    ('0' as int + d) as char
  }

  /** The number a run of decimal digits denotes (leading zeros allowed). */
  function DigitsValue(s: string): nat
    requires AllDigits(s)
  {
    if s == [] then 0 else 10 * DigitsValue(s[..|s| - 1]) + DigitValue(s[|s| - 1])
  }

  /** `str(n)` for a non-negative int. */
  function NatToDecimal(n: nat): (r: string)
    ensures IsDigitString(r)
    ensures DigitsValue(r) == n
  {
    var last := [DigitChar(n % 10)];
    if n < 10 then last
    else
      var r := NatToDecimal(n / 10) + last;
      assert r[..|r| - 1] == NatToDecimal(n / 10);
      r
  }

  /** `str(i)` for an int. */
  function IntToDecimal(i: int): string {
    if i < 0 then "-" + NatToDecimal(-i) else NatToDecimal(i)
  }

  /** `int(t)` on already stripped text: an optional sign and at least one digit. */
  function IntLiteral(t: string): (r: Option<int>)
    ensures r.Some? ==> t != [] && (IsDigit(t[0]) || t[0] == '-' || t[0] == '+')
  {
    if t == [] then None
    else if (t[0] == '-' || t[0] == '+') && IsDigitString(t[1..]) then
      var d: int := DigitsValue(t[1..]);
      Some(if t[0] == '-' then -d else d)
    else if IsDigitString(t) then Some(DigitsValue(t))
    else None
  }

  /** `int()` reads back every int that `str()` prints. */
  lemma IntLiteralOfDecimal(i: int)
    ensures IntLiteral(IntToDecimal(i)) == Some(i)
  {
    if i < 0 {
      assert IntToDecimal(i)[1..] == NatToDecimal(-i);
    }
  }

  /** Length of the run of digits at the start of `s`. */
  function DigitRun(s: string): (k: nat)
    ensures k <= |s| && AllDigits(s[..k])
    ensures k < |s| ==> !IsDigit(s[k])
  {
    if s != [] && IsDigit(s[0]) then
      var k := 1 + DigitRun(s[1..]);
      assert s[..k] == [s[0]] + s[1..][..k - 1];
      k
    else 0
  }

  function DropSign(s: string): string {
    if s != [] && (s[0] == '+' || s[0] == '-') then s[1..] else s
  }

  predicate IsExponent(e: string) {
    |e| >= 2 && (e[0] == 'e' || e[0] == 'E') && IsDigitString(DropSign(e[1..]))
  }

  /** digits [ '.' digits ] [ exponent ], with at least one digit in the mantissa. */
  predicate IsDecimalFloat(t: string) {
    var a := DigitRun(t);
    var afterInt := t[a..];
    var hasDot := afterInt != [] && afterInt[0] == '.';
    var frac := if hasDot then afterInt[1..] else afterInt;
    var b := if hasDot then DigitRun(frac) else 0;
    var expPart := frac[b..];
    a + b > 0 && (expPart == [] || IsExponent(expPart))
  }

  /** `float(t)` succeeds on already stripped text. */
  predicate IsFloatLiteral(t: string) {
    var u := DropSign(t);
    Lower(u) == "inf" || Lower(u) == "infinity" || Lower(u) == "nan" || IsDecimalFloat(u)
  }

  // ---------------------------------------------------------------------------
  // str() of a value and of a cell

  /** `str(v)` for a scalar: `True`/`False`, decimal ints, the float's text, the string itself. */
  function ValueText(v: Value): string {
    match v
    case B(b) => if b then "True" else "False"
    case N(n) => IntToDecimal(n)
    case F(f) => f.repr
    case Str(s) => s
  }

  /** `str(cell)`: an empty cell prints as `None`. */
  function CellText(c: Cell): string {
    match c
    case Full(v) => ValueText(v)
    case Blank => "None"
  }
}
