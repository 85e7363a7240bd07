/**
 * The two conversions between Go's `int` (64 bits wide) and decimal text that the
 * request pipeline relies on: `strconv.Atoi` parses the width and height route
 * parameters, and `%d` formatting (the same text as `strconv.Itoa`) renders them
 * into the cache-key text.
 */
module Strconv {
  import opened Wrappers
  import opened GoText

  const MaxInt64: int := 0x7FFF_FFFF_FFFF_FFFF
  const MinInt64: int := -0x8000_0000_0000_0000
  const MaxUint64: int := 0xFFFF_FFFF_FFFF_FFFF

  /** Go's `int` on a 64-bit platform. */
  type Int64 = x: int | MinInt64 <= x <= MaxInt64

  const Plus: Byte := 0x2B
  const Minus: Byte := 0x2D

  predicate IsDigit(b: Byte) {
    0x30 <= b <= 0x39
  }

  predicate AllDigits(s: Str) {
    forall i | 0 <= i < |s| :: IsDigit(s[i])
  }

  // ---------------------------------------------------------------- formatting

  /** The decimal digits of n, most significant first, with no leading zero. */
  function Digits(n: nat): (r: Str)
    ensures |r| > 0 && AllDigits(r)
  {
    if n < 10 then [0x30 + n] else Digits(n / 10) + [0x30 + n % 10]
  }

  /** `%d` of an int: a '-' for negative values, then the digits of the magnitude. */
  function Itoa(n: int): (r: Str)
    ensures |r| > 0
    ensures forall i | 0 <= i < |r| :: IsDigit(r[i]) || (i == 0 && r[i] == Minus)
  {
    if n < 0 then [Minus] + Digits(-n) else Digits(n)
  }

  // ---------------------------------------------------------- reference value

  /** The value of the digits of s appended to the decimal number acc. */
  function Horner(acc: nat, s: Str): nat
    requires AllDigits(s)
    decreases |s|
  {
    if s == [] then acc else Horner(acc * 10 + (s[0] as int - 0x30), s[1..])
  }

  /** The part of s after an optional leading sign. */
  function Unsigned(s: Str): Str {
    if |s| > 0 && (s[0] == Plus || s[0] == Minus) then s[1..] else s
  }

  /** The text Atoi accepts: an optional '+' or '-', then one or more decimal digits. */
  predicate WellFormed(s: Str) {
    |Unsigned(s)| > 0 && AllDigits(Unsigned(s))
  }

  /** The mathematical value of well-formed text, unbounded. */
  function SignedValue(s: Str): int
    requires WellFormed(s)
  {
    if s[0] == Minus then -(Horner(0, Unsigned(s)) as int) else Horner(0, Unsigned(s))
  }

  /** The run of decimal digits s starts with. */
  function LeadingDigits(s: Str): (r: Str)
    ensures AllDigits(r) && r <= s
    ensures |r| < |s| ==> !IsDigit(s[|r|])
  {
    if s == [] || !IsDigit(s[0]) then [] else [s[0]] + LeadingDigits(s[1..])
  }

  /**
   * The inputs Atoi reports as out of range: those whose leading digits (after
   * the sign) already exceed MaxUint64, whatever follows them, and well-formed
   * text outside the signed 64-bit range.
   */
  predicate RangeError(s: Str) {
    || Horner(0, LeadingDigits(Unsigned(s))) > MaxUint64
    || (WellFormed(s) && !(MinInt64 <= SignedValue(s) <= MaxInt64))
  }

  // ------------------------------------------------------------------- parsing

  datatype NumErrorKind = InvalidSyntax | OutOfRange

  /** strconv.NumError for Func "Atoi": the whole input and the reason. */
  datatype NumError = NumError(num: Str, kind: NumErrorKind)

  /** How ParseUint's digit loop ends. */
  datatype Scan = Scanned(n: nat) | SyntaxStop | RangeStop

  /**
   * strconv.ParseUint's base-10 loop over a 64-bit range: it stops at the first byte that is
   * not a digit (syntax) or at the first digit that would carry the value past
   * MaxUint64 (range), whichever comes first.
   */
  function ScanUint(s: Str, acc: nat): Scan {
    if s == [] then Scanned(acc)
    else if !IsDigit(s[0]) then SyntaxStop
    else if acc * 10 + (s[0] as int - 0x30) > MaxUint64 then RangeStop
    else ScanUint(s[1..], acc * 10 + (s[0] as int - 0x30))
  }

  /**
   * strconv.Atoi: strip one sign, reject an empty remainder, scan the digits, then
   * check the result against the signed 64-bit range.
   */
  function Atoi(s: Str): (r: Result<Int64, NumError>)
    ensures r.Err? ==> r.error.num == s
    ensures |Unsigned(s)| == 0 ==> r == Err(NumError(s, InvalidSyntax))
    ensures r.Ok? && r.value < 0 ==> s[0] == Minus
  {
    var neg := |s| > 0 && s[0] == Minus;
    var body := Unsigned(s);
    if body == [] then Err(NumError(s, InvalidSyntax))
    else
      match ScanUint(body, 0)
      case SyntaxStop => Err(NumError(s, InvalidSyntax))
      case RangeStop => Err(NumError(s, OutOfRange))
      case Scanned(u) =>
        if !neg && u > MaxInt64 then Err(NumError(s, OutOfRange))
        else if neg && u > -MinInt64 then Err(NumError(s, OutOfRange))
        else Ok(if neg then -(u as int) else u)
  }

  /** err.Error() of a NumError from Atoi (the input is quoted without escaping). */
  function NumErrorMessage(e: NumError): (r: Str)
    ensures |r| > |e.num| + 23 && r[23..23 + |e.num|] == e.num
    ensures r[|r| - 1] == if e.kind == InvalidSyntax then 0x78 else 0x65
  {
    Lit("strconv.Atoi: parsing \"") + e.num + Lit("\": ")
    + (if e.kind == InvalidSyntax then Lit("invalid syntax") else Lit("value out of range"))
  }

  /** The message determines the error: its last byte gives the reason, its length the input. */
  lemma NumErrorMessageInjective(e1: NumError, e2: NumError)
    requires NumErrorMessage(e1) == NumErrorMessage(e2)
    ensures e1 == e2
  {
    var m := NumErrorMessage(e1);
    assert e1.kind == e2.kind;
    assert |e1.num| == |e2.num|;
    assert e1.num == m[23..23 + |e1.num|] == e2.num;
  }

  // -------------------------------------------------------------------- lemmas

  lemma {:induction false} HornerGrows(acc: nat, s: Str)
    requires AllDigits(s)
    ensures Horner(acc, s) >= acc
    decreases |s|
  {
    if s != [] {
      HornerGrows(acc * 10 + (s[0] as int - 0x30), s[1..]);
    }
  }

  /** On digits, the scan is Horner evaluation cut off above MaxUint64. */
  lemma {:induction false} ScanDigits(s: Str, acc: nat)
    requires AllDigits(s) && acc <= MaxUint64
    ensures ScanUint(s, acc) == if Horner(acc, s) > MaxUint64 then RangeStop else Scanned(Horner(acc, s))
    decreases |s|
  {
    if s != [] {
      var next := acc * 10 + (s[0] as int - 0x30);
      assert IsDigit(s[0]) && AllDigits(s[1..]);
      assert Horner(acc, s) == Horner(next, s[1..]);
      assert ScanUint(s, acc) == if next > MaxUint64 then RangeStop else ScanUint(s[1..], next);
      HornerGrows(next, s[1..]);
      if next <= MaxUint64 {
        ScanDigits(s[1..], next);
      }
    }
  }

  /** A byte that is not a digit always stops the scan short of a value. */
  lemma {:induction false} ScanNonDigits(s: Str, acc: nat)
    requires !AllDigits(s)
    ensures !ScanUint(s, acc).Scanned?
    decreases |s|
  {
    if IsDigit(s[0]) {
      var next := acc * 10 + (s[0] as int - 0x30);
      assert !AllDigits(s[1..]) by {
        var i :| 0 <= i < |s| && !IsDigit(s[i]);
        assert s[1..][i - 1] == s[i];
      }
      if next <= MaxUint64 {
        ScanNonDigits(s[1..], next);
      }
    }
  }

  /**
   * The scan over any text: a range stop exactly when the leading digits
   * overflow, a value exactly when the text is all digits, a syntax stop
   * otherwise.
   */
  lemma {:induction false} ScanLeadingDigits(s: Str, acc: nat)
    requires acc <= MaxUint64
    ensures var p := LeadingDigits(s);
      ScanUint(s, acc) == if Horner(acc, p) > MaxUint64 then RangeStop
                          else if p == s then Scanned(Horner(acc, p)) else SyntaxStop
    decreases |s|
  {
    if s != [] && IsDigit(s[0]) {
      var next := acc * 10 + (s[0] as int - 0x30);
      var p := LeadingDigits(s);
      assert p[1..] == LeadingDigits(s[1..]);
      assert Horner(acc, p) == Horner(next, LeadingDigits(s[1..]));
      HornerGrows(next, LeadingDigits(s[1..]));
      if next <= MaxUint64 {
        ScanLeadingDigits(s[1..], next);
        assert p == s <==> LeadingDigits(s[1..]) == s[1..];
      }
    }
  }

  /**
   * Atoi accepts exactly the well-formed text whose value fits in 64 bits, returns
   * that value, and reports the whole input on failure; a failure on well-formed
   * text is always a range error.
   */
  lemma AtoiMeaning(s: Str)
    ensures Atoi(s).Ok? <==> WellFormed(s) && MinInt64 <= SignedValue(s) <= MaxInt64
    ensures Atoi(s).Ok? ==> Atoi(s).value == SignedValue(s)
    ensures Atoi(s).Err? ==> Atoi(s).error.num == s
    ensures Atoi(s).Err? && WellFormed(s) ==> Atoi(s).error.kind == OutOfRange
    ensures Atoi(s).Err? ==> (Atoi(s).error.kind == OutOfRange <==> RangeError(s))
  {
    var body := Unsigned(s);
    if body != [] {
      ScanLeadingDigits(body, 0);
      if AllDigits(body) {
        ScanDigits(body, 0);
        assert LeadingDigits(body) == body;
      } else {
        ScanNonDigits(body, 0);
      }
    }
  }

  /**
   * A range error can come before a syntax error: in "99999999999999999999x"
   * (twenty '9' bytes, then 'x') the twentieth digit overflows before the scan
   * reaches the 'x'.
   */
  lemma OverflowBeforeSyntax(s: Str)
    requires |s| == 21 && (forall i | 0 <= i < 20 :: s[i] == 0x39) && s[20] == 0x78
    ensures !WellFormed(s)
    ensures Atoi(s) == Err(NumError(s, OutOfRange))
  {
    var nines := s[..20];
    assert s == nines + [0x78];
    assert LeadingDigits(s) == nines by {
      LeadingDigitsOfDigits(nines, [0x78]);
    }
    NinesValue(nines);
    assert Unsigned(s) == s;
    assert !AllDigits(s);
    AtoiMeaning(s);
  }

  /** Leading digits stop exactly where a non-digit follows a run of digits. */
  lemma {:induction false} LeadingDigitsOfDigits(p: Str, rest: Str)
    requires AllDigits(p) && (rest == [] || !IsDigit(rest[0]))
    ensures LeadingDigits(p + rest) == p
    decreases |p|
  {
    if p != [] {
      assert (p + rest)[1..] == p[1..] + rest;
      LeadingDigitsOfDigits(p[1..], rest);
    }
  }

  /** Twenty nines are worth 10^20 - 1, past MaxUint64. */
  lemma NinesValue(nines: Str)
    requires |nines| == 20 && forall i | 0 <= i < 20 :: nines[i] == 0x39
    ensures AllDigits(nines) && Horner(0, nines) > MaxUint64
  {
    NinesHorner(nines);
    assert Nines(5) == 99_999;
    assert Nines(10) == 9_999_999_999;
    assert Nines(15) == 999_999_999_999_999;
    assert Nines(20) == 99_999_999_999_999_999_999;
  }

  /** The number written with n nines. */
  function Nines(n: nat): nat {
    if n == 0 then 0 else Nines(n - 1) * 10 + 9
  }

  lemma {:induction false} NinesHorner(p: Str)
    requires forall i | 0 <= i < |p| :: p[i] == 0x39
    ensures AllDigits(p) && Horner(0, p) == Nines(|p|)
  {
    if p != [] {
      var q := p[..|p| - 1];
      assert p == q + [0x39];
      NinesHorner(q);
      HornerAppend(0, q, 0x39);
    }
  }

  lemma {:induction false} HornerAppend(acc: nat, s: Str, d: Byte)
    requires AllDigits(s) && IsDigit(d)
    ensures AllDigits(s + [d])
    ensures Horner(acc, s + [d]) == Horner(acc, s) * 10 + (d as int - 0x30)
    decreases |s|
  {
    if s != [] {
      assert (s + [d])[1..] == s[1..] + [d];
      HornerAppend(acc * 10 + (s[0] as int - 0x30), s[1..], d);
    }
  }

  /** Reading back the digits of n gives n. */
  lemma {:induction false} DigitsValue(n: nat)
    ensures Horner(0, Digits(n)) == n
  {
    if n >= 10 {
      DigitsValue(n / 10);
      HornerAppend(0, Digits(n / 10), 0x30 + n % 10);
    }
  }

  /** The formatted text of every 64-bit int parses back to it. */
  lemma ItoaRoundTrip(n: Int64)
    ensures Atoi(Itoa(n)) == Ok(n)
  {
    var t := Itoa(n);
    var m: nat := if n < 0 then -(n as int) else n;
    DigitsValue(m);
    assert Unsigned(t) == Digits(m);
    AtoiMeaning(t);
  }

  /** Distinct ints format to distinct text, whatever their width. */
  lemma ItoaInjective(a: int, b: int)
    requires Itoa(a) == Itoa(b)
    ensures a == b
  {
    var ma: nat := if a < 0 then -a else a;
    var mb: nat := if b < 0 then -b else b;
    DigitsValue(ma);
    DigitsValue(mb);
    if a < 0 && b < 0 {
      assert Digits(ma) == Itoa(a)[1..] == Itoa(b)[1..] == Digits(mb);
    }
  }
}
