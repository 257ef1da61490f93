/**
 * Signed decimal integers as `IntParam` parses them: the behaviour of Go's
 * `strconv.Atoi` on a 64-bit platform, with `strconv.Itoa` as its inverse.
 * `Atoi` returns a value together with an error: a malformed numeral gives 0
 * and a syntax error, an out-of-range numeral gives the nearest 64-bit bound
 * and a range error. `IntParam` discards the error and keeps the value.
 */
module Strconv {
  import opened Wrappers

  const MinInt64: int := -0x8000_0000_0000_0000
  const MaxInt64: int := 0x7fff_ffff_ffff_ffff
  const MaxUint64: int := 0xffff_ffff_ffff_ffff

  predicate IsDigit(c: char) { '0' <= c <= '9' }

  predicate AllDigits(s: string) { forall i :: 0 <= i < |s| ==> IsDigit(s[i]) }

  predicate IsSign(c: char) { c == '+' || c == '-' }

  /** The two failures `strconv` reports. */
  datatype NumError = ErrSyntax | ErrRange

  /** What `strconv.Atoi` returns: a value, and an error or none. */
  datatype Parsed = Parsed(value: int, err: Option<NumError>)

  function Pow10(k: nat): (p: nat)
    ensures p >= 1
  {
    if k == 0 then 1 else 10 * Pow10(k - 1)
  }

  lemma {:induction false} Pow10Monotone(j: nat, k: nat)
    requires j <= k
    ensures Pow10(j) <= Pow10(k)
    decreases k
  {
    if j < k {
      Pow10Monotone(j, k - 1);
    }
  }

  /** Every numeral of at most 19 digits fits 64 unsigned bits. */
  lemma Pow10Nineteen()
    ensures Pow10(19) <= MaxUint64
  {
    assert Pow10(4) == 10_000;
    assert Pow10(8) == 10_000 * Pow10(4);
    assert Pow10(12) == 10_000 * Pow10(8);
    assert Pow10(16) == 10_000 * Pow10(12);
    assert Pow10(19) == 1000 * Pow10(16);
  }

  function DigitChar(d: nat): (c: char)
    requires d < 10
    ensures IsDigit(c)
  {
    (d + '0' as int) as char
  }

  /** The value of a string of decimal digits, most significant first; below 10 to the number of digits. */
  function DigitsValue(s: string): (v: nat)
    requires AllDigits(s)
    ensures v < Pow10(|s|)
  {
    if s == [] then 0
    else DigitsValue(s[..|s| - 1]) * 10 + (s[|s| - 1] as int - '0' as int)
  }

  /** A prefix of a digit string is a digit string of no greater value. */
  lemma {:induction false} DigitsValuePrefix(s: string, j: nat)
    requires AllDigits(s) && j <= |s|
    ensures AllDigits(s[..j]) && DigitsValue(s[..j]) <= DigitsValue(s)
    decreases |s|
  {
    if j < |s| {
      var init := s[..|s| - 1];
      DigitsValuePrefix(init, j);
      assert init[..j] == s[..j];
    } else {
      assert s[..j] == s;
    }
  }

  /** One more digit read: the value of `s[..i + 1]` from the value of `s[..i]`. */
  lemma DigitsValueStep(s: string, i: nat)
    requires i < |s| && AllDigits(s[..i]) && IsDigit(s[i])
    ensures AllDigits(s[..i + 1])
    ensures DigitsValue(s[..i + 1]) == DigitsValue(s[..i]) * 10 + (s[i] as int - '0' as int)
  {
    assert s[..i + 1][..i] == s[..i];
  }

  /**
   * `strconv.ParseUint` in base 10, reading on from position `i` after
   * `s[..i]` was read without error. Each character is checked in turn: a
   * non-digit is a syntax error with value 0, and a digit that takes the value
   * read so far past 64 bits is a range error with the largest unsigned value,
   * whichever comes first.
   */
  function ScanUint(s: string, i: nat): (r: Parsed)
    requires i <= |s| && AllDigits(s[..i]) && DigitsValue(s[..i]) <= MaxUint64
    ensures 0 <= r.value <= MaxUint64
    ensures r.err == None ==> AllDigits(s) && r.value == DigitsValue(s)
    ensures r.err == Some(ErrSyntax) ==> r.value == 0
    ensures r.err == Some(ErrRange) ==> r.value == MaxUint64
    decreases |s| - i
  {
    if i == |s| then
      assert s[..i] == s;
      Parsed(DigitsValue(s), None)
    else if !IsDigit(s[i]) then Parsed(0, Some(ErrSyntax))
    else
      DigitsValueStep(s, i);
      if DigitsValue(s[..i + 1]) > MaxUint64 then Parsed(MaxUint64, Some(ErrRange))
      else ScanUint(s, i + 1)
  }

  /** On a digit string the scan gives its value, or a range error when that exceeds 64 bits. */
  lemma {:induction false} ScanAllDigits(s: string, i: nat)
    requires i <= |s| && AllDigits(s[..i]) && DigitsValue(s[..i]) <= MaxUint64
    requires AllDigits(s)
    ensures ScanUint(s, i) ==
      if DigitsValue(s) > MaxUint64 then Parsed(MaxUint64, Some(ErrRange)) else Parsed(DigitsValue(s), None)
    decreases |s| - i
  {
    if i == |s| {
      assert s[..i] == s;
    } else {
      DigitsValueStep(s, i);
      DigitsValuePrefix(s, i + 1);
      if DigitsValue(s[..i + 1]) <= MaxUint64 {
        ScanAllDigits(s, i + 1);
      }
    }
  }

  /** A non-digit reached before the digits ahead of it exceed 64 bits: a syntax error. */
  lemma {:induction false} ScanSyntax(s: string, i: nat, j: nat)
    requires i <= |s| && AllDigits(s[..i]) && DigitsValue(s[..i]) <= MaxUint64
    requires i <= j < |s| && !IsDigit(s[j])
    requires AllDigits(s[..j]) && DigitsValue(s[..j]) <= MaxUint64
    ensures ScanUint(s, i) == Parsed(0, Some(ErrSyntax))
    decreases |s| - i
  {
    if i < j {
      assert s[..j][i] == s[i];
      DigitsValueStep(s, i);
      DigitsValuePrefix(s[..j], i + 1);
      assert s[..j][..i + 1] == s[..i + 1];
      ScanSyntax(s, i + 1, j);
    }
  }

  /** A run of digits whose value exceeds 64 bits is a range error, whatever follows it. */
  lemma {:induction false} ScanRange(s: string, i: nat, j: nat)
    requires i <= |s| && AllDigits(s[..i]) && DigitsValue(s[..i]) <= MaxUint64
    requires i <= j <= |s| && AllDigits(s[..j]) && DigitsValue(s[..j]) > MaxUint64
    ensures ScanUint(s, i) == Parsed(MaxUint64, Some(ErrRange))
    decreases |s| - i
  {
    if i < j {
      assert s[..j][i] == s[i];
      DigitsValueStep(s, i);
      if DigitsValue(s[..i + 1]) <= MaxUint64 {
        ScanRange(s, i + 1, j);
      }
    }
  }

  /** The decimal digits of `n`, with no leading zero. */
  function FormatNat(n: nat): (s: string)
    ensures s != [] && AllDigits(s)
    ensures s[0] != '0' || n == 0
  {
    if n < 10 then [DigitChar(n)] else FormatNat(n / 10) + [DigitChar(n % 10)]
  }

  /** `strconv.Itoa`: a minus sign exactly for a negative value, then the digits of the magnitude. */
  function Itoa(n: int): (s: string)
    ensures s != [] && (s[0] == '-' <==> n < 0)
    ensures AllDigits(if n < 0 then s[1..] else s) && (if n < 0 then s[1..] else s) != []
  {
    if n < 0 then "-" + FormatNat(-n) else FormatNat(n)
  }

  /**
   * `strconv.Atoi`, which hands numerals of 19 or more bytes to
   * `strconv.ParseInt`: an optional `+` or `-`, then the digits read by
   * `ScanUint`. A syntax error gives 0. A range error from the scan, or a
   * magnitude beyond the signed 64-bit range, gives the bound on the
   * numeral's side. Go's shortcut for shorter strings agrees with this, since
   * fewer than 19 digits cannot overflow.
   */
  function Atoi(s: string): (r: Parsed)
    ensures MinInt64 <= r.value <= MaxInt64
    ensures r.err == Some(ErrSyntax) ==> r.value == 0
    ensures r.err == None ==> s != [] && var d := if IsSign(s[0]) then s[1..] else s;
      d != [] && AllDigits(d) && r.value == (if s[0] == '-' then -(DigitsValue(d) as int) else DigitsValue(d))
    ensures r.err == Some(ErrRange) ==> r.value == MinInt64 || r.value == MaxInt64
    ensures r.value < 0 ==> s != [] && s[0] == '-'
  {
    var negative := s != [] && s[0] == '-';
    var digits := if s != [] && IsSign(s[0]) then s[1..] else s;
    if digits == [] then Parsed(0, Some(ErrSyntax))
    else
      assert digits[|digits| - 1] == s[|s| - 1];
      var u := ScanUint(digits, 0);
      match u.err
      case Some(ErrSyntax) => Parsed(0, Some(ErrSyntax))
      case Some(ErrRange) => Parsed(if negative then MinInt64 else MaxInt64, Some(ErrRange))
      case None =>
        if !negative && u.value > MaxInt64 then Parsed(MaxInt64, Some(ErrRange))
        else if negative && u.value > -MinInt64 then Parsed(MinInt64, Some(ErrRange))
        else Parsed(if negative then -u.value else u.value, None)
  }

  /** What `IntParam` keeps of `Atoi`: the value, with the error discarded. */
  function IntValue(s: string): (n: int)
    ensures MinInt64 <= n <= MaxInt64
    ensures Atoi(s).err == Some(ErrSyntax) ==> n == 0
  {
    Atoi(s).value
  }

  lemma {:induction false} DigitsValueFormat(n: nat)
    ensures DigitsValue(FormatNat(n)) == n
  {
    if n >= 10 {
      var s := FormatNat(n);
      assert s[..|s| - 1] == FormatNat(n / 10);
      DigitsValueFormat(n / 10);
    }
  }

  /**
   * A numeral of digits, unsigned or after '-', parses to its value when that
   * fits 64 bits and to the bound on its side, with a range error, otherwise.
   */
  lemma AtoiNumeral(d: string)
    requires d != [] && AllDigits(d)
    ensures Atoi(d) ==
      if DigitsValue(d) > MaxInt64 then Parsed(MaxInt64, Some(ErrRange)) else Parsed(DigitsValue(d), None)
    ensures Atoi("-" + d) ==
      if DigitsValue(d) > -MinInt64 then Parsed(MinInt64, Some(ErrRange)) else Parsed(-(DigitsValue(d) as int), None)
  {
    ScanAllDigits(d, 0);
    assert !IsSign(d[0]);
    assert ("-" + d)[1..] == d && ("-" + d)[0] == '-';
  }

  /** Every 64-bit integer survives formatting and parsing back, without error. */
  lemma AtoiItoa(n: int)
    requires MinInt64 <= n <= MaxInt64
    ensures Atoi(Itoa(n)) == Parsed(n, None)
  {
    if n < 0 {
      DigitsValueFormat(-n);
      AtoiNumeral(FormatNat(-n));
    } else {
      DigitsValueFormat(n);
      AtoiNumeral(FormatNat(n));
    }
  }

  /** `IntValue` returns exactly the formatted value. */
  lemma IntValueOfItoa(n: int)
    requires MinInt64 <= n <= MaxInt64
    ensures IntValue(Itoa(n)) == n
  {
    AtoiItoa(n);
  }

  /**
   * The first character, after any leading sign, that is not a digit makes
   * parsing fail with a syntax error, and `IntParam` reads 0, provided the
   * digits before it have not already exceeded 64 bits.
   */
  lemma AtoiRejectsNonDigit(s: string, i: nat)
    requires i < |s| && !IsDigit(s[i])
    requires i > 0 || !IsSign(s[0])
    requires var k := if IsSign(s[0]) then 1 else 0;
      AllDigits(s[k..i]) && DigitsValue(s[k..i]) <= MaxUint64
    ensures Atoi(s) == Parsed(0, Some(ErrSyntax))
    ensures IntValue(s) == 0
  {
    if IsSign(s[0]) {
      assert s[1..][i - 1] == s[i] && s[1..][..i - 1] == s[1..i];
      ScanSyntax(s[1..], 0, i - 1);
    } else {
      assert s[..i] == s[0..i];
      ScanSyntax(s, 0, i);
    }
  }

  /** The first non-digit at or after `k`, given one at `i`, with only digits before it. */
  lemma {:induction false} FirstNonDigit(s: string, k: nat, i: nat) returns (f: nat)
    requires k <= i < |s| && !IsDigit(s[i])
    ensures k <= f <= i && !IsDigit(s[f]) && AllDigits(s[k..f])
    decreases i - k
  {
    if IsDigit(s[k]) {
      f := FirstNonDigit(s, k + 1, i);
      assert s[k..f] == [s[k]] + s[k + 1..f];
    } else {
      f := k;
    }
  }

  /**
   * A character among the first 20 that is neither a digit nor a leading sign
   * makes parsing fail with a syntax error, since 19 digits cannot exceed 64 bits.
   */
  lemma AtoiRejectsShortMalformed(s: string, i: nat)
    requires i < |s| && !IsDigit(s[i]) && i <= 19
    requires i > 0 || !IsSign(s[0])
    ensures Atoi(s) == Parsed(0, Some(ErrSyntax))
    ensures IntValue(s) == 0
  {
    var k := if IsSign(s[0]) then 1 else 0;
    var f := FirstNonDigit(s, k, i);
    Pow10Monotone(f - k, 19);
    Pow10Nineteen();
    AtoiRejectsNonDigit(s, f);
  }

  /** A leading '+' changes nothing, unless another sign follows it. */
  lemma AtoiPlus(s: string)
    requires s == [] || !IsSign(s[0])
    ensures Atoi("+" + s) == Atoi(s)
  {
    assert ("+" + s)[1..] == s;
  }

  /**
   * Overflow is detected digit by digit: a run of leading digits whose value
   * exceeds 64 bits gives the upper bound and a range error even when a
   * non-digit follows it.
   */
  lemma AtoiOverflowFirst(s: string, j: nat)
    requires j <= |s| && AllDigits(s[..j]) && DigitsValue(s[..j]) > MaxUint64
    ensures Atoi(s) == Parsed(MaxInt64, Some(ErrRange))
    ensures IntValue(s) == MaxInt64
  {
    assert s[..j][0] == s[0];
    ScanRange(s, 0, j);
  }

  /** A sign with no digits after it is malformed. */
  lemma AtoiSignOnly()
    ensures Atoi("-") == Parsed(0, Some(ErrSyntax)) && IntValue("-") == 0
    ensures Atoi("+") == Parsed(0, Some(ErrSyntax)) && IntValue("+") == 0
  {
    assert "-"[1..] == [];
    assert "+"[1..] == [];
  }

  /**
   * The digit-by-digit overflow check applies after a '-' too: more than 64
   * bits of digits give the lower bound and a range error, whatever follows.
   */
  lemma AtoiNegativeOverflowFirst(s: string, j: nat)
    requires j <= |s| && AllDigits(s[..j]) && DigitsValue(s[..j]) > MaxUint64
    ensures Atoi("-" + s) == Parsed(MinInt64, Some(ErrRange))
    ensures IntValue("-" + s) == MinInt64
  {
    assert ("-" + s)[1..] == s;
    ScanRange(s, 0, j);
  }
}
