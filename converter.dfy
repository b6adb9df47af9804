/**
 * Resource-quantity conversion: a CPU quantity written as a decimal count,
 * optionally followed by the milli suffix `m`, turned into an exact
 * rational number of cores; and the narrowing of an int64 to the int32 range.
 *
 * The text is parsed the way Go's `strconv.ParseUint(s, 10, 64)` parses it
 * (left to right, a syntax error gives 0, an overflow gives MaxUint64), the
 * parse error is discarded, the value is reinterpreted with `int64(...)`
 * and then divided exactly by 1 or by 1000.
 */
module Converter {
  import opened Wrappers
  import opened GoInt

  predicate IsDigit(c: char) {
    '0' <= c <= '9'
  }

  function DigitValue(c: char): (d: nat)
    requires IsDigit(c)
    ensures d <= 9
  {
    (c as int) - ('0' as int)
  }

  predicate AllDigits(s: string) {
    forall i :: 0 <= i < |s| ==> IsDigit(s[i])
  }

  function Pow10(n: nat): (p: nat)
    ensures p >= 1
  {
    if n == 0 then 1 else 10 * Pow10(n - 1)
  }

  /** The number a string of decimal digits denotes: each digit weighted by its position. */
  function DecimalValue(s: string): nat
    requires AllDigits(s)
  {
    if s == [] then 0 else DigitValue(s[0]) * Pow10(|s| - 1) + DecimalValue(s[1..])
  }

  /** A string of `k` letters `m`. */
  function Ms(k: nat): (s: string)
    ensures |s| == k && forall i :: 0 <= i < k ==> s[i] == 'm'
  {
    seq(k, _ => 'm')
  }

  // ---------------------------------------------------------------------
  // The two library calls the converter makes

  /** `strings.HasSuffix(s, "m")`. */
  predicate HasMilliSuffix(s: string): (b: bool)
    ensures b <==> |s| > 0 && s == s[..|s| - 1] + "m"
  {
    |s| > 0 && s[|s| - 1] == 'm'
  }

  /** `strings.TrimRight(s, "m")`: the longest prefix of `s` that does not end in `m`. */
  function TrimRightM(s: string): (r: string)
    ensures r <= s
    ensures !HasMilliSuffix(r)
    ensures forall i :: |r| <= i < |s| ==> s[i] == 'm'
  {
    if HasMilliSuffix(s) then TrimRightM(s[..|s| - 1]) else s
  }

  /** The error part of `strconv.ParseUint`'s result. */
  datatype NumError = ErrSyntax | ErrRange

  /** What `strconv.ParseUint` returns: a value and maybe an error. */
  datatype Parsed = Parsed(value: Uint64, err: Option<NumError>)

  /** `strconv.ParseUint(s, 10, 64)`: the empty string is a syntax error, otherwise the digits are scanned. */
  function ParseUint(s: string): (r: Parsed)
    ensures s == [] ==> r == Parsed(0, Some(ErrSyntax))
    ensures r.err.None? ==> s != [] && AllDigits(s) && r.value == DecimalValue(s)
    ensures r.err == Some(ErrSyntax) ==> r.value == 0 && (s == [] || !AllDigits(s))
    ensures r.err == Some(ErrRange) ==> r.value == MaxUint64
  {
    if s == [] then Parsed(0, Some(ErrSyntax)) else ScanUint(s, 0)
  }

  /**
   * The scanning loop of `strconv.ParseUint`, with `n` the value read so far.
   * A character that is not a digit is a syntax error (value 0); a digit that
   * would take the value past MaxUint64 is a range error (value MaxUint64),
   * reported before anything later in the string is looked at.
   */
  function ScanUint(s: string, n: Uint64): (r: Parsed)
    ensures r.err.None? ==> AllDigits(s) && r.value == n * Pow10(|s|) + DecimalValue(s)
    ensures r.err == Some(ErrSyntax) ==> r.value == 0 && !AllDigits(s)
    ensures r.err == Some(ErrRange) ==> r.value == MaxUint64
    decreases |s|
  {
    if s == [] then Parsed(n, None)
    else if !IsDigit(s[0]) then Parsed(0, Some(ErrSyntax))
    else if n * 10 + DigitValue(s[0]) > MaxUint64 then Parsed(MaxUint64, Some(ErrRange))
    else
      var r := ScanUint(s[1..], n * 10 + DigitValue(s[0]));
      if r.err.None? then ShiftDigitOntoDigits(s, n); r else r
  }

  // ---------------------------------------------------------------------
  // convertDec

  /** The text handed to `ParseUint`: with an `m` suffix, every trailing `m` is stripped. */
  function NumberText(cpu: string): (t: string)
    ensures t <= cpu
    ensures !HasMilliSuffix(cpu) ==> t == cpu
    ensures HasMilliSuffix(cpu) ==> !HasMilliSuffix(t) && forall i :: |t| <= i < |cpu| ==> cpu[i] == 'm'
  {
    if HasMilliSuffix(cpu) then TrimRightM(cpu) else cpu
  }

  /**
   * `convertDec`: the quantity as an exact rational; the parse error is ignored.
   * The result is a whole number of cores, or of thousandths of a core with
   * the suffix, and that number is an int64; text rejected as a syntax error
   * gives 0.
   */
  function ConvertDec(cpu: string): (r: real)
    ensures var scaled := r * (if HasMilliSuffix(cpu) then 1000.0 else 1.0);
      && scaled == scaled.Floor as real
      && MinInt64 <= scaled.Floor <= MaxInt64
    ensures ParseUint(NumberText(cpu)).err == Some(ErrSyntax) ==> r == 0.0
  {
    var base := if HasMilliSuffix(cpu) then 1000 else 1;
    var parsed := ParseUint(NumberText(cpu));
    (Uint64ToInt64(parsed.value) as real) / (base as real)
  }

  // ---------------------------------------------------------------------
  // Int64ToInt

  /** `Int64ToInt`: an int64 inside the int32 range is kept, anything else becomes 0. */
  function Int64ToInt(i: Int64): (r: int)
    ensures MinInt32 <= r <= MaxInt32
    ensures MinInt32 <= i <= MaxInt32 ==> r == i
    ensures i < MinInt32 || i > MaxInt32 ==> r == 0
  {
    if i < MinInt32 || i > MaxInt32 then 0 else i
  }

  // ---------------------------------------------------------------------
  // Lemmas about the scan

  lemma {:induction false} DecimalValueBelowPow10(s: string)
    requires AllDigits(s)
    ensures DecimalValue(s) < Pow10(|s|)
  {
    if s != [] {
      assert AllDigits(s[1..]);
      DecimalValueBelowPow10(s[1..]);
      assert Pow10(|s|) == 10 * Pow10(|s| - 1);
      LeadingDigitBound(DigitValue(s[0]), Pow10(|s| - 1), DecimalValue(s[1..]));
    }
  }

  lemma LeadingDigitBound(d: int, p: int, rest: int)
    requires 0 <= d <= 9 && 0 <= rest < p
    ensures d * p + rest < 10 * p
  {
    assert d * p <= 9 * p;
  }

  /** One step of the scan: reading digit `s[0]` after `n` leaves the final value unchanged. */
  lemma ShiftDigit(s: string, n: int)
    requires |s| > 0 && AllDigits(s)
    ensures AllDigits(s[1..])
    ensures n * Pow10(|s|) + DecimalValue(s)
         == (n * 10 + DigitValue(s[0])) * Pow10(|s| - 1) + DecimalValue(s[1..])
  {
    assert AllDigits(s[1..]);
    Shift(n, DigitValue(s[0]), |s|, DecimalValue(s[1..]));
  }

  /** As `ShiftDigit`, when only the first character is known to be a digit and the rest is all digits. */
  lemma ShiftDigitOntoDigits(s: string, n: int)
    requires |s| > 0 && IsDigit(s[0]) && AllDigits(s[1..])
    ensures AllDigits(s)
    ensures n * Pow10(|s|) + DecimalValue(s)
         == (n * 10 + DigitValue(s[0])) * Pow10(|s| - 1) + DecimalValue(s[1..])
  {
    assert forall i :: 1 <= i < |s| ==> s[i] == s[1..][i - 1];
    ShiftDigit(s, n);
  }

  lemma Shift(n: int, d: int, k: nat, rest: int)
    requires k > 0
    ensures n * Pow10(k) + (d * Pow10(k - 1) + rest) == (n * 10 + d) * Pow10(k - 1) + rest
  {
    var p := Pow10(k - 1);
    assert Pow10(k) == 10 * p;
    Distribute(n, d, p);
  }

  lemma NoLessWhenScaled(m: nat, p: nat)
    requires p >= 1
    ensures m <= m * p
  {
  }

  lemma Distribute(n: int, d: int, p: int)
    ensures n * (10 * p) + d * p == (n * 10 + d) * p
  {
  }

  /** A digit string whose value fits in a uint64 is read exactly, without error. */
  lemma {:induction false} ScanUintDigits(s: string, n: Uint64)
    requires AllDigits(s)
    requires n * Pow10(|s|) + DecimalValue(s) <= MaxUint64
    ensures ScanUint(s, n) == Parsed(n * Pow10(|s|) + DecimalValue(s), None)
  {
    if s != [] {
      ShiftDigit(s, n);
      var m := n * 10 + DigitValue(s[0]);
      NoLessWhenScaled(m, Pow10(|s| - 1));
      ScanUintDigits(s[1..], m);
    }
  }

  /** A prefix of digits whose value exceeds MaxUint64 is a range error, whatever follows it. */
  lemma {:induction false} ScanUintOverflow(s: string, n: Uint64, k: nat)
    requires k <= |s| && AllDigits(s[..k])
    requires n * Pow10(k) + DecimalValue(s[..k]) > MaxUint64
    ensures ScanUint(s, n) == Parsed(MaxUint64, Some(ErrRange))
  {
    if k > 0 {
      var t := s[..k];
      assert t[0] == s[0] && t[1..] == s[1..][..k - 1];
      ShiftDigit(t, n);
      var m := n * 10 + DigitValue(s[0]);
      if m <= MaxUint64 {
        ScanUintOverflow(s[1..], m, k - 1);
      }
    }
  }

  /** A non-digit reached before the value overflows is a syntax error with value 0. */
  lemma {:induction false} ScanUintSyntax(s: string, n: Uint64, k: nat)
    requires k < |s| && !IsDigit(s[k]) && AllDigits(s[..k])
    requires n * Pow10(k) + DecimalValue(s[..k]) <= MaxUint64
    ensures ScanUint(s, n) == Parsed(0, Some(ErrSyntax))
  {
    if k > 0 {
      var t := s[..k];
      assert t[0] == s[0] && t[1..] == s[1..][..k - 1];
      ShiftDigit(t, n);
      var m := n * 10 + DigitValue(s[0]);
      NoLessWhenScaled(m, Pow10(k - 1));
      ScanUintSyntax(s[1..], m, k - 1);
    }
  }

  /** The position of the first character that is not a digit, or `|s|`. */
  function FirstNonDigit(s: string): (k: nat)
    ensures k <= |s| && AllDigits(s[..k])
    ensures k < |s| ==> !IsDigit(s[k])
  {
    if s == [] || !IsDigit(s[0]) then 0
    else
      var k := 1 + FirstNonDigit(s[1..]);
      assert s[..k] == [s[0]] + s[1..][..k - 1];
      k
  }

  // ---------------------------------------------------------------------
  // Lemmas about convertDec

  /** A plain digit string converts to exactly the integer it denotes, e.g. "100" to 100. */
  lemma ConvertDecWhole(n: string)
    requires |n| > 0 && AllDigits(n) && DecimalValue(n) <= MaxInt64
    ensures ConvertDec(n) == DecimalValue(n) as real
  {
    assert !HasMilliSuffix(n);
    ScanUintDigits(n, 0);
  }

  /** A digit string followed by `m` converts to exactly a thousandth of its value. */
  lemma ConvertDecMilli(n: string)
    requires |n| > 0 && AllDigits(n) && DecimalValue(n) <= MaxInt64
    ensures ConvertDec(n + "m") == DecimalValue(n) as real / 1000.0
  {
    var cpu := n + "m";
    assert HasMilliSuffix(cpu) && cpu[..|cpu| - 1] == n;
    assert !HasMilliSuffix(n);
    assert NumberText(cpu) == n;
    ScanUintDigits(n, 0);
  }

  /** Every trailing `m` is stripped, yet the value is divided by 1000 only once: "30mm" is "30m". */
  lemma {:induction false} ConvertDecManyMilli(s: string, k: nat)
    requires k >= 1
    ensures ConvertDec(s + Ms(k)) == ConvertDec(s + "m")
    ensures NumberText(s + Ms(k)) == NumberText(s + "m")
  {
    if k > 1 {
      var t := s + Ms(k);
      assert HasMilliSuffix(t);
      assert t[..|t| - 1] == s + Ms(k - 1);
      assert HasMilliSuffix(s + Ms(k - 1));
      ConvertDecManyMilli(s, k - 1);
    } else {
      assert Ms(1) == "m";
    }
  }

  /**
   * Text that `ParseUint` rejects as a syntax error converts to 0: the text left
   * after stripping the suffix is empty, or has a non-digit (a sign, a point, a
   * letter) among its first 20 characters, before any overflow is possible.
   */
  lemma ConvertDecMalformed(cpu: string)
    requires var t := NumberText(cpu);
      t == [] || exists k :: 0 <= k < |t| && k < 20 && !IsDigit(t[k])
    ensures ParseUint(NumberText(cpu)) == Parsed(0, Some(ErrSyntax))
    ensures ConvertDec(cpu) == 0.0
  {
    var t := NumberText(cpu);
    if t != [] {
      var k :| 0 <= k < |t| && k < 20 && !IsDigit(t[k]);
      var j := FirstNonDigit(t);
      assert j <= k;
      DecimalValueBelowPow10(t[..j]);
      Pow10Monotone(j, 19);
      Pow10Of19();
      ScanUintSyntax(t, 0, j);
    }
  }

  lemma Pow10Of19()
    ensures Pow10(19) == 10_000_000_000_000_000_000
  {
    assert Pow10(3) == 1000;
    assert Pow10(6) == 1000_000;
    assert Pow10(9) == 1000_000_000;
    assert Pow10(12) == 1000_000_000_000;
    assert Pow10(15) == 1000_000_000_000_000;
    assert Pow10(18) == 1000_000_000_000_000_000;
  }

  lemma {:induction false} Pow10Monotone(i: nat, j: nat)
    requires i <= j
    ensures Pow10(i) <= Pow10(j)
  {
    if i < j {
      Pow10Monotone(i, j - 1);
    }
  }

  /**
   * A digit string between 2^63 and MaxUint64 parses without error, but
   * `int64(...)` reinterprets it as a negative number.
   */
  lemma ConvertDecWraps(n: string)
    requires |n| > 0 && AllDigits(n) && MaxInt64 < DecimalValue(n) <= MaxUint64
    ensures ConvertDec(n) == (DecimalValue(n) - Modulus64) as real
    ensures ConvertDec(n) < 0.0
  {
    assert !HasMilliSuffix(n) && NumberText(n) == n;
    ScanUintDigits(n, 0);
    assert ParseUint(n).value == DecimalValue(n);
    assert Uint64ToInt64(DecimalValue(n)) == DecimalValue(n) - Modulus64;
  }

  /**
   * A digit string past MaxUint64 is a range error, `ParseUint` answers
   * MaxUint64 and `int64(MaxUint64)` is -1: the quantity becomes -1, or
   * -1/1000 with the suffix.
   */
  lemma ConvertDecOverflow(n: string)
    requires |n| > 0 && AllDigits(n) && DecimalValue(n) > MaxUint64
    ensures ConvertDec(n) == -1.0
    ensures ConvertDec(n + "m") == -1.0 / 1000.0
  {
    assert !HasMilliSuffix(n) && n[..|n|] == n;
    ScanUintOverflow(n, 0, |n|);
    var cpu := n + "m";
    assert HasMilliSuffix(cpu) && cpu[..|cpu| - 1] == n;
    assert NumberText(cpu) == n;
  }

  /** The digit strings of the fixtures' quantities and their values. */
  lemma FixtureDigits()
    ensures AllDigits("10") && DecimalValue("10") == 10
    ensures AllDigits("30") && DecimalValue("30") == 30
    ensures AllDigits("100") && DecimalValue("100") == 100
  {
    assert "10"[1..] == "0" && "30"[1..] == "0" && "0"[1..] == "";
    assert "100"[1..] == "00" && "00"[1..] == "0";
  }

  /** The cpu sample the fake metrics source reports: "30m" is 0.03 cores. */
  lemma ConvertDecSample()
    ensures ConvertDec("30m") == 0.03
  {
    FixtureDigits();
    ConvertDecMilli("30");
    assert "30" + "m" == "30m";
  }

  /** The cpu bounds of the VPA fixture's policy: "10m" is 0.01 and "100m" is 0.1 cores. */
  lemma ConvertDecPolicyBounds()
    ensures ConvertDec("10m") == 0.01
    ensures ConvertDec("100m") == 0.1
  {
    FixtureDigits();
    ConvertDecMilli("10");
    assert "10" + "m" == "10m";
    ConvertDecMilli("100");
    assert "100" + "m" == "100m";
  }
}
