/** A model of the signed 64-bit integer parse that the account constructor
    uses to validate account numbers (`long.TryParse(s, out _)` with its default
    settings): optional white space around the number, an optional leading
    sign, one or more ASCII decimal digits, and a value inside the 64-bit range.
    Only success or failure and the parsed value are modelled. */
module Int64Parsing {

  datatype Option<T> = None | Some(value: T)

  const MAX_INT64: int := 0x7FFF_FFFF_FFFF_FFFF
  const MIN_INT64: int := -0x8000_0000_0000_0000

  /** The characters the parser skips before and after the number:
      tab, line feed, vertical tab, form feed, carriage return and space. */
  predicate IsWhite(c: char) {
    c == ' ' || '\t' <= c <= '\r'
  }

  predicate IsDigit(c: char) {
    '0' <= c <= '9'
  }

  predicate IsSign(c: char) {
    c == '+' || c == '-'
  }

  predicate AllWhite(s: string) {
    forall i :: 0 <= i < |s| ==> IsWhite(s[i])
  }

  predicate AllDigits(s: string) {
    forall i :: 0 <= i < |s| ==> IsDigit(s[i])
  }

  function Pow10(n: nat): (p: nat)
    ensures p >= 1
  {
    if n == 0 then 1 else 10 * Pow10(n - 1)
  }

  /** The value of a string of decimal digits, most significant first. */
  function DigitsValue(s: string): (v: nat)
    requires AllDigits(s)
    ensures v < Pow10(|s|)
  {
    if s == [] then 0
    else DigitsValue(s[..|s| - 1]) * 10 + (s[|s| - 1] as int - '0' as int)
  }

  /** Appending a digit multiplies the value by ten and adds the digit. */
  lemma DigitsValueAppend(s: string, c: char)
    requires AllDigits(s) && IsDigit(c)
    ensures AllDigits(s + [c])
    ensures DigitsValue(s + [c]) == 10 * DigitsValue(s) + (c as int - '0' as int)
  {
  }

  /** The number of white-space characters at the start of `s`. */
  function LeadingWhite(s: string): (n: nat)
    ensures n <= |s|
    ensures forall j :: 0 <= j < n ==> IsWhite(s[j])
    ensures n < |s| ==> !IsWhite(s[n])
  {
    if s == [] || !IsWhite(s[0]) then 0 else 1 + LeadingWhite(s[1..])
  }

  /** The number of white-space characters at the end of `s`. */
  function TrailingWhite(s: string): (n: nat)
    ensures n <= |s|
    ensures forall j :: |s| - n <= j < |s| ==> IsWhite(s[j])
    ensures n < |s| ==> !IsWhite(s[|s| - 1 - n])
  {
    if s == [] || !IsWhite(s[|s| - 1]) then 0 else 1 + TrailingWhite(s[..|s| - 1])
  }

  /** `s` without its leading and trailing white space. */
  function TrimWhite(s: string): (t: string)
    ensures t == [] <==> forall j :: 0 <= j < |s| ==> IsWhite(s[j])
    ensures t != [] ==> !IsWhite(t[0]) && !IsWhite(t[|t| - 1])
    ensures t != [] ==> t == s[LeadingWhite(s)..|s| - TrailingWhite(s)]
  {
    var lead := LeadingWhite(s);
    if lead == |s| then []
    else
      var trail := TrailingWhite(s);
      assert !IsWhite(s[lead]);
      assert trail < |s| - lead;
      s[lead..|s| - trail]
  }

  /** The value `s` denotes, or None when the parse fails. */
  function ParseInt64(s: string): (r: Option<int>)
    ensures r.Some? ==> MIN_INT64 <= r.value <= MAX_INT64
  {
    ParseTrimmed(TrimWhite(s))
  }

  /** The value of text with no white space around it: an optional sign and
      one or more digits, within the 64-bit range. */
  function ParseTrimmed(t: string): (r: Option<int>)
    ensures r.Some? ==> MIN_INT64 <= r.value <= MAX_INT64
  {
    if t == [] then None
    else
      var negative := t[0] == '-';
      var digits := if IsSign(t[0]) then t[1..] else t;
      if digits == [] || !AllDigits(digits) then None
      else
        var v: int := DigitsValue(digits);
        if negative then
          if v <= -MIN_INT64 then Some(-v) else None
        else
          if v <= MAX_INT64 then Some(v) else None
  }

  predicate ParsesAsInt64(s: string) {
    ParseInt64(s).Some?
  }

  lemma {:induction false} Pow10Monotone(m: nat, n: nat)
    requires m <= n
    ensures Pow10(m) <= Pow10(n)
  {
    if m < n {
      Pow10Monotone(m, n - 1);
    }
  }

  lemma Pow10Of18()
    ensures Pow10(18) == 1_000_000_000_000_000_000
  {
    assert Pow10(6) == 1_000_000;
    assert Pow10(12) == 1_000_000_000_000;
  }

  /** White space in front of text that starts with something else is
      counted exactly. */
  lemma {:induction false} LeadingWhiteConcat(w: string, t: string)
    requires AllWhite(w) && t != [] && !IsWhite(t[0])
    ensures LeadingWhite(w + t) == |w|
  {
    if w != [] {
      assert (w + t)[1..] == w[1..] + t;
      LeadingWhiteConcat(w[1..], t);
    }
  }

  /** White space after text that ends with something else is counted
      exactly. */
  lemma {:induction false} TrailingWhiteConcat(t: string, w: string)
    requires AllWhite(w) && t != [] && !IsWhite(t[|t| - 1])
    ensures TrailingWhite(t + w) == |w|
  {
    if w == [] {
      assert t + w == t;
    } else {
      assert (t + w)[..|t + w| - 1] == t + w[..|w| - 1];
      TrailingWhiteConcat(t, w[..|w| - 1]);
    }
  }

  /** Trimming removes exactly the padding around text that starts and ends
      with something other than white space. */
  lemma TrimPadded(before: string, core: string, after: string)
    requires AllWhite(before) && AllWhite(after)
    requires core != [] && !IsWhite(core[0]) && !IsWhite(core[|core| - 1])
    ensures TrimWhite(before + core + after) == core
  {
    var s := before + core + after;
    assert s == before + (core + after);
    assert (core + after)[0] == core[0];
    LeadingWhiteConcat(before, core + after);
    assert (before + core)[|before + core| - 1] == core[|core| - 1];
    TrailingWhiteConcat(before + core, after);
    assert s[|before|..|s| - |after|] == core;
  }

  /** The signed value of `sign` followed by `digits`, or None when it
      falls outside the 64-bit range. */
  function SignedValue(sign: string, digits: string): (r: Option<int>)
    requires AllDigits(digits)
    ensures r.Some? ==> MIN_INT64 <= r.value <= MAX_INT64
  {
    var v: int := if sign == "-" then 0 - DigitsValue(digits) else DigitsValue(digits);
    if MIN_INT64 <= v <= MAX_INT64 then Some(v) else None
  }

  lemma SignedDigits(sign: string, digits: string)
    requires sign == "" || sign == "+" || sign == "-"
    requires digits != [] && AllDigits(digits)
    ensures ParseTrimmed(sign + digits) == SignedValue(sign, digits)
  {
    var core := sign + digits;
    if sign == "" {
      assert core == digits && !IsSign(core[0]);
    } else {
      assert core[0] == sign[0] && core[1..] == digits;
    }
  }

  /** A run of digits with an optional sign, padded with white space on both
      sides, parses to its signed value when that value fits in 64 bits and
      is rejected when it does not. */
  lemma PaddedNumber(before: string, sign: string, digits: string, after: string)
    requires AllWhite(before) && AllWhite(after)
    requires sign == "" || sign == "+" || sign == "-"
    requires digits != [] && AllDigits(digits)
    ensures ParseInt64(before + sign + digits + after) == SignedValue(sign, digits)
  {
    var core := sign + digits;
    assert before + sign + digits + after == before + core + after;
    assert core[|core| - 1] == digits[|digits| - 1];
    TrimPadded(before, core, after);
    SignedDigits(sign, digits);
  }

  /** Every non-empty string of at most 18 decimal digits is accepted, with its
      decimal value. */
  lemma DigitStringParses(s: string)
    requires s != [] && AllDigits(s) && |s| <= 18
    ensures ParseInt64(s) == Some(DigitsValue(s))
  {
    PaddedNumber("", "", s, "");
    assert "" + "" + s + "" == s;
    Pow10Monotone(|s|, 18);
    Pow10Of18();
  }

  /** A character that is neither a digit, white space nor a sign makes the
      parse fail, wherever it stands. */
  lemma NonDigitRejected(s: string, i: nat)
    requires i < |s| && !IsDigit(s[i]) && !IsWhite(s[i]) && !IsSign(s[i])
    ensures ParseInt64(s) == None
  {
    var lead, trail := LeadingWhite(s), TrailingWhite(s);
    assert lead <= i < |s| - trail;
    var t := TrimWhite(s);
    assert t == s[lead..|s| - trail];
    assert t[i - lead] == s[i];
    var digits := if IsSign(t[0]) then t[1..] else t;
    if IsSign(t[0]) {
      assert i - lead > 0;
      assert digits[i - lead - 1] == s[i];
    } else {
      assert digits[i - lead] == s[i];
    }
    assert !AllDigits(digits);
  }
}
