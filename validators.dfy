/**
 * The field validators of helpers/mongooseValidators.ts: the CPF and CNPJ
 * check-digit validators (loops over the characters of the input), and the
 * country-code guard around an ISO 3166-1 alpha-3 lookup.
 */
module Validators {
  import opened Wrappers
  import opened JsNumber
  import opened CheckDigits

  // ---------------------------------------------------------------------------
  // CPF: 11 digits, two check digits

  /** The two check-digit equations of a CPF over the first 11 characters of `s`. */
  predicate CpfCheckDigitsHold(s: string)
    requires |s| >= 11 && AllDigits(s, 11)
  {
    && DigitValue(s[9]) == CheckDigit(WeightedSum(s, 9, Descending(10)))
    && DigitValue(s[10]) == CheckDigit(WeightedSum(s, 10, Descending(11)))
  }

  /**
   * What `cpfValidator` accepts: the string holds a run of 11 digits
   * somewhere, its first 11 characters are digits (a non-digit there
   * parses to NaN and fails a comparison) and they satisfy both equations.
   */
  predicate CpfAccepts(cpf: string) {
    && HasDigitRun(cpf, 11)
    && |cpf| >= 11
    && AllDigits(cpf, 11)
    && CpfCheckDigitsHold(cpf)
  }

  method CpfValidator(cpf: string) returns (valid: bool)
    ensures valid == CpfAccepts(cpf)
  {
    if !HasDigitRun(cpf, 11) {
      return false;
    }
    var numbers := cpf[..9];
    var digits := cpf[9..];
    var sum := Num(0);
    var i := 10;
    while i > 1
      invariant 1 <= i <= 10
      invariant sum == PartialSum(cpf, 10 - i, Descending(10))
    {
      PartialSumStep(cpf, 10 - i, Descending(10));
      sum := Plus(sum, Times(ParseDigit(numbers[10 - i]), Num(i)));
      i := i - 1;
    }
    CheckDigitOfPartialSum(cpf, 9, Descending(10));
    var result := CheckDigitOf(sum);
    if !StrictEquals(result, ParseDigit(digits[0])) {
      return false;
    }
    assert AllDigits(cpf, 10);

    numbers := cpf[..10];
    sum := Num(0);
    i := 11;
    while i > 1
      invariant 1 <= i <= 11
      invariant sum == PartialSum(cpf, 11 - i, Descending(11))
    {
      PartialSumStep(cpf, 11 - i, Descending(11));
      sum := Plus(sum, Times(ParseDigit(numbers[11 - i]), Num(i)));
      i := i - 1;
    }
    CheckDigitOfPartialSum(cpf, 10, Descending(11));
    result := CheckDigitOf(sum);
    if !StrictEquals(result, ParseDigit(digits[1])) {
      return false;
    }
    assert AllDigits(cpf, 11);
    return true;
  }

  // ---------------------------------------------------------------------------
  // CNPJ: 14 digits, two check digits

  /**
   * What `cnpjValidator` accepts: a run of 14 digits somewhere, every
   * character a digit, and the last two characters the check digits of the
   * characters before them. The first pass weighs the first |s| - 2 digits
   * starting at weight |s| - 9, the second the first |s| - 1 digits starting
   * at |s| - 8, both counting down and wrapping to 9 below 2.
   */
  predicate CnpjAccepts(cnpj: string) {
    && HasDigitRun(cnpj, 14)
    && |cnpj| >= 14
    && AllDigits(cnpj, |cnpj|)
    && var size := |cnpj| - 2;
       && DigitValue(cnpj[size]) == CheckDigit(WeightedSum(cnpj, size, Cycling(size - 7)))
       && DigitValue(cnpj[size + 1]) == CheckDigit(WeightedSum(cnpj, size + 1, Cycling(size + 1 - 7)))
  }

  method CnpjValidator(cnpj: string) returns (valid: bool)
    ensures valid == CnpjAccepts(cnpj)
  {
    if !HasDigitRun(cnpj, 14) {
      return false;
    }
    var size := |cnpj| - 2;
    var digits := cnpj[size..];
    var numbers := cnpj[..size];
    var sum := Num(0);
    var pos := size - 7;
    var i := size;
    while i >= 1
      invariant 0 <= i <= size
      invariant sum == PartialSum(cnpj, size - i, Cycling(|cnpj| - 9))
      invariant pos == CyclingWeight(|cnpj| - 9, size - i)
    {
      PartialSumStep(cnpj, size - i, Cycling(|cnpj| - 9));
      sum := Plus(sum, Times(ParseDigit(numbers[size - i]), Num(pos)));
      pos := pos - 1;
      if pos < 2 {
        pos := 9;
      }
      i := i - 1;
    }
    CheckDigitOfPartialSum(cnpj, size, Cycling(|cnpj| - 9));
    var result := CheckDigitOf(sum);
    if !StrictEquals(result, ParseDigit(digits[0])) {
      return false;
    }
    assert AllDigits(cnpj, |cnpj| - 1);

    size := size + 1;
    numbers := cnpj[..size];
    sum := Num(0);
    pos := size - 7;
    i := size;
    while i >= 1
      invariant 0 <= i <= size
      invariant sum == PartialSum(cnpj, size - i, Cycling(|cnpj| - 8))
      invariant pos == CyclingWeight(|cnpj| - 8, size - i)
    {
      PartialSumStep(cnpj, size - i, Cycling(|cnpj| - 8));
      sum := Plus(sum, Times(ParseDigit(numbers[size - i]), Num(pos)));
      pos := pos - 1;
      if pos < 2 {
        pos := 9;
      }
      i := i - 1;
    }
    CheckDigitOfPartialSum(cnpj, size, Cycling(|cnpj| - 8));
    result := CheckDigitOf(sum);
    if !StrictEquals(result, ParseDigit(digits[1])) {
      return false;
    }
    assert AllDigits(cnpj, |cnpj|);
    return true;
  }

  // ---------------------------------------------------------------------------
  // Country code: a length guard around an ISO 3166-1 alpha-3 lookup

  /** The characters `String.prototype.trim` removes: JavaScript's WhiteSpace and LineTerminator. */
  predicate IsJsWhitespace(c: char) {
    var n := c as int;
    || 0x09 <= n <= 0x0D
    || n == 0x20 || n == 0xA0 || n == 0x1680
    || 0x2000 <= n <= 0x200A
    || n == 0x2028 || n == 0x2029 || n == 0x202F || n == 0x205F
    || n == 0x3000 || n == 0xFEFF
  }

  /** How many whitespace characters open `s`. */
  function LeadingWhitespace(s: string): (n: nat)
    ensures n <= |s|
    ensures forall k | 0 <= k < n :: IsJsWhitespace(s[k])
    ensures n < |s| ==> !IsJsWhitespace(s[n])
  {
    if s == [] || !IsJsWhitespace(s[0]) then 0
    else
      var rest := LeadingWhitespace(s[1..]);
      assert forall k | 1 <= k < 1 + rest :: s[k] == s[1..][k - 1];
      1 + rest
  }

  /** How many whitespace characters close `s`. */
  function TrailingWhitespace(s: string): (n: nat)
    ensures n <= |s|
    ensures forall k | |s| - n <= k < |s| :: IsJsWhitespace(s[k])
    ensures n < |s| ==> !IsJsWhitespace(s[|s| - n - 1])
  {
    if s == [] || !IsJsWhitespace(s[|s| - 1]) then 0
    else
      var init := s[..|s| - 1];
      var rest := TrailingWhitespace(init);
      assert forall k | 0 <= k < |init| :: s[k] == init[k];
      1 + rest
  }

  /**
   * `s.trim()`: `s` without its opening and closing whitespace. The result
   * is the slice between the first and past the last non-whitespace
   * character, and is empty when there is none.
   */
  function Trim(s: string): (t: string)
    ensures exists a: nat, b: nat | a <= b <= |s| ::
      && t == s[a..b]
      && (forall k | 0 <= k < a :: IsJsWhitespace(s[k]))
      && (forall k | b <= k < |s| :: IsJsWhitespace(s[k]))
    ensures t != [] ==> !IsJsWhitespace(t[0]) && !IsJsWhitespace(t[|t| - 1])
  {
    var a := LeadingWhitespace(s);
    var rest := s[a..];
    var b := a + |rest| - TrailingWhitespace(rest);
    assert forall k | b <= k < |s| :: s[k] == rest[k - a];
    s[a..b]
  }

  /** JavaScript's `length`: UTF-16 code units, two for a character outside the Basic Multilingual Plane. */
  function Utf16Length(s: string): (n: nat)
    ensures |s| <= n <= 2 * |s|
  {
    if s == [] then 0 else Utf16Length(s[..|s| - 1]) + (if s[|s| - 1] as int >= 0x1_0000 then 2 else 1)
  }

  /**
   * `countryCodeValidator`: a missing or empty code is rejected; otherwise
   * the trimmed code must be 3 units long and the ISO lookup, given the
   * code as it came (untrimmed), must recognise it. The lookup is a
   * parameter: the ISO 3166-1 table lives in a library outside this model.
   */
  function CountryCodeValidator(code: Option<string>, isIsoAlpha3: string -> bool): (valid: bool)
    ensures valid ==> code.Some? && code.value != [] && isIsoAlpha3(code.value)
    ensures valid ==> Utf16Length(Trim(code.value)) == 3
    ensures code.Some? && code.value != [] && Utf16Length(Trim(code.value)) == 3 ==>
              (valid <==> isIsoAlpha3(code.value))
  {
    match code
    case None => false
    case Some(c) => if c == [] then false else Utf16Length(Trim(c)) == 3 && isIsoAlpha3(c)
  }
}

/** Properties of the CPF and CNPJ acceptance rules. */
module CheckDigitProperties {
  import opened Wrappers
  import opened JsNumber
  import opened CheckDigits
  import opened Validators

  lemma DigitCharOfValue(c: char)
    requires IsDigit(c)
    ensures DigitChar(DigitValue(c)) == c
  {
  }

  /** The two check digits a 9-digit CPF base is completed with. */
  function CpfCompletion(base: string): (q: string)
    requires |base| == 9 && AllDigits(base, 9)
    ensures |q| == 2 && AllDigits(q, 2)
  {
    var d1 := CheckDigit(WeightedSum(base, 9, Descending(10)));
    var withFirst := base + [DigitChar(d1)];
    assert AllDigits(withFirst, 10);
    var d2 := CheckDigit(WeightedSum(withFirst, 10, Descending(11)));
    [DigitChar(d1), DigitChar(d2)]
  }

  /** Every 9-digit CPF base has exactly one accepted two-character completion. */
  lemma CpfCompletionUnique(base: string, q: string)
    requires |base| == 9 && AllDigits(base, 9) && |q| == 2
    ensures CpfAccepts(base + q) <==> q == CpfCompletion(base)
  {
    var s := base + q;
    var d1 := CheckDigit(WeightedSum(base, 9, Descending(10)));
    var withFirst := base + [DigitChar(d1)];
    assert AllDigits(withFirst, 10);
    assert s[..9] == base[..9];
    if IsDigit(q[0]) && IsDigit(q[1]) {
      assert AllDigits(s, 11);
      assert RunAt(s, 0, 11);
      WeightedSumPrefix(s, base, 9, Descending(10));
      if s[9] == DigitChar(d1) {
        assert s[..10] == withFirst[..10];
        WeightedSumPrefix(s, withFirst, 10, Descending(11));
      }
      if CpfAccepts(s) {
        DigitCharOfValue(s[9]);
        DigitCharOfValue(s[10]);
      }
    } else {
      assert !AllDigits(s, 11);
    }
  }

  /** Replacing either check digit of an accepted 11-digit CPF by another character makes it rejected. */
  lemma CpfDetectsCheckDigitChange(s: string, k: nat, c: char)
    requires |s| == 11 && CpfAccepts(s)
    requires (k == 9 || k == 10) && c != s[k]
    ensures !CpfAccepts(s[k := c])
  {
    var base := s[..9];
    assert AllDigits(base, 9);
    assert s == base + s[9..];
    CpfCompletionUnique(base, s[9..]);
    var t := s[k := c];
    assert t == base + t[9..];
    assert t[9..][k - 9] != s[9..][k - 9];
    CpfCompletionUnique(base, t[9..]);
  }

  /** Past the run-of-11 gate only the first 11 characters are read: anything after them is ignored. */
  lemma CpfIgnoresTail(s: string, t: string)
    requires |s| == 11
    ensures CpfAccepts(s + t) == CpfAccepts(s)
  {
    var u := s + t;
    assert forall k | 0 <= k < 11 :: u[k] == s[k];
    if AllDigits(s, 11) {
      assert RunAt(s, 0, 11) && RunAt(u, 0, 11);
      assert u[..11] == s[..11];
      WeightedSumPrefix(u, s, 9, Descending(10));
      WeightedSumPrefix(u, s, 10, Descending(11));
    }
  }

  /** The gate is only a search for 11 digits: a run behind a letter passes it, yet the input is rejected. */
  lemma CpfGatePassesRejectedInput()
    ensures HasDigitRun("a11144477735", 11) && !CpfAccepts("a11144477735")
  {
    assert RunAt("a11144477735", 1, 11);
    assert !IsDigit("a11144477735"[0]);
  }

  /** The known-good CPF 111.444.777-35 is accepted; altering its last digit is caught. */
  lemma CpfKnownVectors()
    ensures CpfAccepts("11144477735")
    ensures !CpfAccepts("11144477736")
  {
    var base := "111444777";
    assert WeightedSum(base, 9, Descending(10)) == 162;
    assert base + [DigitChar(3)] == "1114447773";
    assert WeightedSum("1114447773", 10, Descending(11)) == 204;
    assert CpfCompletion(base) == "35";
    assert base + "35" == "11144477735";
    assert base + "36" == "11144477736";
    CpfCompletionUnique(base, "35");
    CpfCompletionUnique(base, "36");
  }

  /** The known-good CPF followed by other characters is still accepted. */
  lemma CpfAcceptsTrailingCharacters()
    ensures CpfAccepts("11144477735-00")
  {
    CpfKnownVectors();
    assert "11144477735" + "-00" == "11144477735-00";
    CpfIgnoresTail("11144477735", "-00");
  }

  /**
   * The two check digits a CNPJ base of 12 or more digits is completed
   * with; the start weights grow with the length of the base.
   */
  function CnpjCompletion(base: string): (q: string)
    requires |base| >= 12 && AllDigits(base, |base|)
    ensures |q| == 2 && AllDigits(q, 2)
  {
    var n := |base|;
    var d1 := CheckDigit(WeightedSum(base, n, Cycling(n - 7)));
    var withFirst := base + [DigitChar(d1)];
    assert AllDigits(withFirst, n + 1);
    var d2 := CheckDigit(WeightedSum(withFirst, n + 1, Cycling(n + 1 - 7)));
    [DigitChar(d1), DigitChar(d2)]
  }

  /** For 14 characters the passes use weights 5,4,3,2,9,...,2 and 6,5,4,3,2,9,...,2. */
  lemma CnpjWeightsOfFourteenDigits()
    ensures seq(12, k requires 0 <= k => CyclingWeight(14 - 9, k)) == [5, 4, 3, 2, 9, 8, 7, 6, 5, 4, 3, 2]
    ensures seq(13, k requires 0 <= k => CyclingWeight(14 - 8, k)) == [6, 5, 4, 3, 2, 9, 8, 7, 6, 5, 4, 3, 2]
  {
    assert CyclingWeight(5, 11) == 2 && CyclingWeight(6, 12) == 2;
  }

  /** Every all-digit CNPJ base of 12 or more digits has exactly one accepted two-character completion. */
  lemma CnpjCompletionUnique(base: string, q: string)
    requires |base| >= 12 && AllDigits(base, |base|) && |q| == 2
    ensures CnpjAccepts(base + q) <==> q == CnpjCompletion(base)
  {
    var n := |base|;
    var s := base + q;
    var d1 := CheckDigit(WeightedSum(base, n, Cycling(n - 7)));
    var withFirst := base + [DigitChar(d1)];
    assert AllDigits(withFirst, n + 1);
    assert s[..n] == base[..n];
    if IsDigit(q[0]) && IsDigit(q[1]) {
      assert AllDigits(s, |s|);
      assert RunAt(s, 0, 14);
      WeightedSumPrefix(s, base, n, Cycling(n - 7));
      if s[n] == DigitChar(d1) {
        assert s[..n + 1] == withFirst[..n + 1];
        WeightedSumPrefix(s, withFirst, n + 1, Cycling(n + 1 - 7));
      }
      if CnpjAccepts(s) {
        DigitCharOfValue(s[n]);
        DigitCharOfValue(s[n + 1]);
      }
    } else {
      assert !IsDigit(s[n]) || !IsDigit(s[n + 1]);
    }
  }

  /** Replacing either check digit (the last two characters) of an accepted CNPJ by another character makes it rejected. */
  lemma CnpjDetectsCheckDigitChange(s: string, k: nat, c: char)
    requires |s| >= 14 && CnpjAccepts(s)
    requires (k == |s| - 2 || k == |s| - 1) && c != s[k]
    ensures !CnpjAccepts(s[k := c])
  {
    var n := |s| - 2;
    var base := s[..n];
    assert AllDigits(base, n);
    assert s == base + s[n..];
    CnpjCompletionUnique(base, s[n..]);
    var t := s[k := c];
    assert t == base + t[n..];
    assert t[n..][k - n] != s[n..][k - n];
    CnpjCompletionUnique(base, t[n..]);
  }

  /**
   * The CNPJ verdict does not change when a "0" is put in front: the
   * validator always reads the last two characters as the check digits and
   * its start weight grows with the length, so longer strings of leading
   * zeros are accepted too.
   */
  lemma CnpjLeadingZero(s: string)
    requires |s| >= 14
    ensures CnpjAccepts("0" + s) == CnpjAccepts(s)
  {
    var z := "0" + s;
    assert forall k | 1 <= k < |z| :: z[k] == s[k - 1];
    assert AllDigits(z, |z|) <==> AllDigits(s, |s|) by {
      if AllDigits(s, |s|) {
        assert forall k | 0 <= k < |z| :: IsDigit(z[k]);
      }
      if AllDigits(z, |z|) {
        assert forall k | 0 <= k < |s| :: IsDigit(s[k]) by {
          forall k | 0 <= k < |s| ensures IsDigit(s[k]) {
            assert z[k + 1] == s[k];
          }
        }
      }
    }
    if AllDigits(s, |s|) {
      assert RunAt(s, 0, 14) && RunAt(z, 0, 14);
      var size := |s| - 2;
      WeightedSumLeadingZero(s, size, |z| - 9);
      WeightedSumLeadingZero(s, size + 1, |z| - 8);
      assert z[size + 1] == s[size] && z[size + 2] == s[size + 1];
    }
  }

  /** The check digits of the CNPJ base 11.222.333/0001 are 8 and 1. */
  lemma CnpjExampleCompletion()
    ensures CnpjCompletion("112223330001") == "81"
  {
    assert WeightedSum("112223330001", 6, Cycling(5)) == 61;
    assert WeightedSum("112223330001", 12, Cycling(5)) == 102;
    assert "112223330001" + [DigitChar(8)] == "1122233300018";
    assert WeightedSum("1122233300018", 6, Cycling(6)) == 56;
    assert WeightedSum("1122233300018", 13, Cycling(6)) == 120;
  }

  /** The known-good CNPJ 11.222.333/0001-81 is accepted; altering its last digit is caught. */
  lemma CnpjKnownVectors()
    ensures CnpjAccepts("11222333000181")
    ensures !CnpjAccepts("11222333000182")
  {
    var base := "112223330001";
    CnpjExampleCompletion();
    assert base + "81" == "11222333000181";
    assert base + "82" == "11222333000182";
    CnpjCompletionUnique(base, "81");
    CnpjCompletionUnique(base, "82");
  }

  /** A 15-character string passes: the known-good CNPJ behind a leading zero. */
  lemma CnpjAcceptsFifteenCharacters()
    ensures CnpjAccepts("011222333000181")
  {
    CnpjKnownVectors();
    assert "0" + "11222333000181" == "011222333000181";
    CnpjLeadingZero("11222333000181");
  }
}

/** Properties of `trim` and of the country-code guard. */
module CountryCodeProperties {
  import opened Wrappers
  import opened Validators

  /** Trimming a trimmed string changes nothing. */
  lemma TrimIdempotent(s: string)
    ensures Trim(Trim(s)) == Trim(s)
  {
    var t := Trim(s);
    assert LeadingWhitespace(t) == 0;
    assert t[0..] == t;
    assert TrailingWhitespace(t) == 0;
  }

  /** A string with no whitespace at either end is its own trim. */
  lemma TrimOfTrimmed(s: string)
    requires s != [] ==> !IsJsWhitespace(s[0]) && !IsJsWhitespace(s[|s| - 1])
    ensures Trim(s) == s
  {
    assert LeadingWhitespace(s) == 0;
    assert s[0..] == s;
    assert TrailingWhitespace(s) == 0;
  }

  /** Undefined, empty, two- and four-letter codes fail whatever the lookup says. */
  lemma CountryCodeWrongLengths(isIsoAlpha3: string -> bool)
    ensures !CountryCodeValidator(None, isIsoAlpha3)
    ensures !CountryCodeValidator(Some(""), isIsoAlpha3)
    ensures !CountryCodeValidator(Some("BR"), isIsoAlpha3)
    ensures !CountryCodeValidator(Some("BRAZ"), isIsoAlpha3)
  {
    TrimOfTrimmed("BR");
    TrimOfTrimmed("BRAZ");
  }

  /** A three-letter code, padded or not, gets the lookup's verdict on the string as given. */
  lemma CountryCodeThreeLetters(isIsoAlpha3: string -> bool)
    ensures CountryCodeValidator(Some("BRA"), isIsoAlpha3) == isIsoAlpha3("BRA")
    ensures CountryCodeValidator(Some(" BRA "), isIsoAlpha3) == isIsoAlpha3(" BRA ")
  {
    TrimOfTrimmed("BRA");
    var padded := " BRA ";
    assert LeadingWhitespace(padded[1..]) == 0;
    assert LeadingWhitespace(padded) == 1;
    assert padded[1..] == "BRA ";
    assert TrailingWhitespace("BRA "[..3]) == 0;
    assert TrailingWhitespace("BRA ") == 1;
    assert Trim(padded) == "BRA";
    assert Utf16Length("BRA") == 3;
  }
}
